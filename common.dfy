/** Values, masks and numpy-style sequence helpers shared by every component.

    The numpy arrays of the program are modelled as sequences; a boolean mask
    stands for an index set, and `Keep(s, m)` is `np.delete(s, <indices where m
    is false>)`, so every co-array filtered with the same mask stays aligned. */
module Common {

  /** A double that may be NaN: the program marks missing measurements with NaN. */
  datatype Value = NaN | Num(r: real)

  datatype Option<T> = None | Some(value: T)

  /** Why a run of the program stops: `sys.exit()` after a message, or an
      exception nobody catches. */
  datatype Crash =
    | ConfigExit         // sys.exit() after a configuration message
    | MissingAttribute   // AttributeError: an attribute (self.UTM, self.uv) was never set
    | NoneArithmetic     // TypeError: arithmetic on, indexing of, or projection of, None
    | EmptyReduction     // ValueError: np.min / np.max of an empty array
    | ZeroDivision       // ZeroDivisionError (a zero arange step, a zero point count)
    | ShapeMismatch      // ValueError: operands of different lengths
    | ProjectionFailure  // pyproj CRSError raised outside a try block
    | ParseError         // float() or indexing failure on a text line
    | IndexOutOfRange    // IndexError on a list of datasets
    | SliceStepZero      // ValueError: slice step cannot be zero
    | UndefinedName      // NameError: a local variable no branch assigned

  datatype Outcome<T> = Done(value: T) | Fail(crash: Crash)

  /** What a state-changing operation reports: it finished, or the run stopped. */
  datatype Status = Ok | Stop(crash: Crash)

  /** A planar point pair `(x, y)`, or a geographic `(lon, lat)`. */
  type Pair = (real, real)

  /** The projection library: which EPSG codes give a valid CRS, and the forward
      map `(lon, lat) -> (x, y)` in metres of that CRS. */
  datatype ProjectionService = ProjectionService(known: int -> bool, forward: (int, real, real) -> Pair)

  /** The numpy statistics the program takes as given; only how they are
      combined is modelled. `percentile(s, q)` is `np.percentile(s, q)`. */
  datatype Numerics = Numerics(
    percentile: (seq<real>, real) -> real,
    median: seq<real> -> real,
    std: seq<real> -> real,
    sqrt: real -> real)

  /** Kilometres to metres, the factor `1e3` the loaders apply. */
  const KmToM: real := 1000.0

  /** A closed box `[x0, x1] x [y0, y1]` (map limits `xlim`, `ylim`). */
  datatype Box = Box(x0: real, x1: real, y0: real, y1: real)

  /** The mask of points inside the closed box `[x0, x1] x [y0, y1]`. */
  function BoxMask(x: seq<real>, y: seq<real>, b: Box): (m: seq<bool>)
    requires |x| == |y|
    ensures |m| == |x|
    ensures forall i :: 0 <= i < |x| ==> (m[i] <==> b.x0 <= x[i] <= b.x1 && b.y0 <= y[i] <= b.y1)
  {
    seq(|x|, i requires 0 <= i < |x| => b.x0 <= x[i] <= b.x1 && b.y0 <= y[i] <= b.y1)
  }

  // ---------------------------------------------------------------- values

  /** `v + d` in IEEE arithmetic: NaN stays NaN. */
  function AddReal(v: Value, d: real): (r: Value)
    ensures r.NaN? <==> v.NaN?
    ensures v.Num? ==> r.r - v.r == d
  {
    match v
    case NaN => NaN
    case Num(x) => Num(x + d)
  }

  /** `a - b` in IEEE arithmetic: NaN if either operand is NaN. */
  function Minus(a: Value, b: Value): (r: Value)
    ensures r.Num? <==> a.Num? && b.Num?
    ensures r.Num? ==> r.r + b.r == a.r
  {
    if a.Num? && b.Num? then Num(a.r - b.r) else NaN
  }

  /** The mask `~np.isnan(vs)`. */
  function NotNaN(vs: seq<Value>): (m: seq<bool>)
    ensures |m| == |vs|
    ensures forall i :: 0 <= i < |vs| ==> (m[i] <==> vs[i].Num?)
  {
    seq(|vs|, i requires 0 <= i < |vs| => vs[i].Num?)
  }

  /** The numbers among `vs`, in order (NaN entries dropped). */
  function Numbers(vs: seq<Value>): (r: seq<real>)
    ensures |r| == Count(NotNaN(vs))
    decreases |vs|
  {
    if |vs| == 0 then []
    else
      assert NotNaN(vs)[1..] == NotNaN(vs[1..]);
      (if vs[0].Num? then [vs[0].r] else []) + Numbers(vs[1..])
  }

  /** `np.nanmedian`: NaN on no numbers, otherwise the median of the numbers. */
  function NanMedian(num: Numerics, vs: seq<real>): (r: Value)
    ensures r.NaN? <==> |vs| == 0
  {
    if |vs| == 0 then NaN else Num(num.median(vs))
  }

  /** `np.nanstd`: NaN on no numbers, otherwise the standard deviation. */
  function NanStd(num: Numerics, vs: seq<real>): (r: Value)
    ensures r.NaN? <==> |vs| == 0
  {
    if |vs| == 0 then NaN else Num(num.std(vs))
  }

  // ---------------------------------------------------------------- masks

  /** Number of `true` entries of a mask. */
  function Count(m: seq<bool>): (c: nat)
    ensures c <= |m|
  {
    if |m| == 0 then 0 else (if m[0] then 1 else 0) + Count(m[1..])
  }

  /** The entries of `s` where `m` holds, in their original order. */
  function Keep<T>(s: seq<T>, m: seq<bool>): (r: seq<T>)
    requires |s| == |m|
    ensures |r| == Count(m)
  {
    if |s| == 0 then [] else (if m[0] then [s[0]] else []) + Keep(s[1..], m[1..])
  }

  /** `np.flatnonzero(m)`: the indices where `m` holds, increasing. */
  function Kept(m: seq<bool>): (r: seq<int>)
    ensures |r| == Count(m)
    ensures forall k :: 0 <= k < |r| ==> 0 <= r[k] < |m| && m[r[k]]
    ensures forall k1, k2 :: 0 <= k1 < k2 < |r| ==> r[k1] < r[k2]
  {
    KeptFromSound(m, 0);
    KeptFrom(m, 0)
  }

  /** The indices `off + i` where `m[i]` holds. */
  function KeptFrom(m: seq<bool>, off: int): (r: seq<int>)
    ensures |r| == Count(m)
    ensures forall k :: 0 <= k < |r| ==> off <= r[k] < off + |m|
    decreases |m|
  {
    if |m| == 0 then []
    else
      var rest := KeptFrom(m[1..], off + 1);
      if m[0] then [off] + rest else rest
  }

  /** Every index `KeptFrom` lists has its mask bit set, and they increase. */
  lemma {:induction false} KeptFromSound(m: seq<bool>, off: int)
    ensures forall k :: 0 <= k < |KeptFrom(m, off)| ==> m[KeptFrom(m, off)[k] - off]
    ensures forall k1, k2 :: 0 <= k1 < k2 < |KeptFrom(m, off)| ==> KeptFrom(m, off)[k1] < KeptFrom(m, off)[k2]
    decreases |m|
  {
    if |m| > 0 {
      var rest := KeptFrom(m[1..], off + 1);
      KeptFromSound(m[1..], off + 1);
      forall k | 0 <= k < |rest| ensures m[rest[k] - off] {
        assert m[1..][rest[k] - (off + 1)] == m[rest[k] - off];
      }
    }
  }

  /** Every index where the mask holds is kept. */
  lemma KeptComplete(m: seq<bool>, i: int)
    requires 0 <= i < |m| && m[i]
    ensures i in Kept(m)
  {
    KeptFromComplete(m, 0, i);
  }

  /** A mask counts something exactly when one of its entries is set. */
  lemma CountPositive(b: seq<bool>)
    ensures Count(b) > 0 <==> exists i :: 0 <= i < |b| && b[i]
  {
    if Count(b) > 0 {
      assert b[Kept(b)[0]];
    }
    if i :| 0 <= i < |b| && b[i] {
      KeptComplete(b, i);
    }
  }

  lemma {:induction false} KeptFromComplete(m: seq<bool>, off: int, i: int)
    requires 0 <= i < |m| && m[i]
    ensures off + i in KeptFrom(m, off)
    decreases |m|
  {
    var rest := KeptFrom(m[1..], off + 1);
    if i > 0 {
      KeptFromComplete(m[1..], off + 1, i - 1);
      assert off + i in rest;
    }
    if m[0] {
      assert KeptFrom(m, off) == [off] + rest;
    } else {
      assert KeptFrom(m, off) == rest;
    }
  }

  /** The k-th kept entry is the entry at the k-th kept index: `Keep` filters
      every co-array with one and the same index set. */
  lemma KeepAt<T>(s: seq<T>, m: seq<bool>, k: int)
    requires |s| == |m| && 0 <= k < Count(m)
    ensures 0 <= Kept(m)[k] < |s| && Keep(s, m)[k] == s[Kept(m)[k]]
  {
    KeepAtFrom(s, m, 0, k);
  }

  lemma {:induction false} KeepAtFrom<T>(s: seq<T>, m: seq<bool>, off: int, k: int)
    requires |s| == |m| && 0 <= k < Count(m)
    ensures 0 <= KeptFrom(m, off)[k] - off < |s| && Keep(s, m)[k] == s[KeptFrom(m, off)[k] - off]
    decreases |s|
  {
    assert |s| > 0;
    var j := if m[0] then k - 1 else k;
    if j >= 0 {
      KeepAtFrom(s[1..], m[1..], off + 1, j);
    }
    KeepAtStep(s, m, off, k, j);
  }

  /** One unfolding step of `KeepAt`, given the claim for the tail. */
  lemma KeepAtStep<T>(s: seq<T>, m: seq<bool>, off: int, k: int, j: int)
    requires |s| == |m| && |s| > 0 && 0 <= k < Count(m) && j == (if m[0] then k - 1 else k)
    requires j >= 0 ==> (0 <= j < |Keep(s[1..], m[1..])| && 0 <= KeptFrom(m[1..], off + 1)[j] - (off + 1) < |s| - 1 &&
                         Keep(s[1..], m[1..])[j] == s[1..][KeptFrom(m[1..], off + 1)[j] - (off + 1)])
    ensures 0 <= KeptFrom(m, off)[k] - off < |s| && Keep(s, m)[k] == s[KeptFrom(m, off)[k] - off]
  {
    KeepStep(s, m);
    KeptFromStep(m, off);
    var rest, tail := KeptFrom(m[1..], off + 1), Keep(s[1..], m[1..]);
    if j >= 0 {
      assert KeptFrom(m, off)[k] == rest[j];
      assert Keep(s, m)[k] == tail[j];
      assert s[1..][rest[j] - (off + 1)] == s[rest[j] - off];
    }
  }

  /** One step of `Keep`: the first entry, if its bit is set, then the rest. */
  lemma KeepStep<T>(s: seq<T>, m: seq<bool>)
    requires |s| == |m| && |s| > 0
    ensures m[0] ==> Keep(s, m) == [s[0]] + Keep(s[1..], m[1..])
    ensures !m[0] ==> Keep(s, m) == Keep(s[1..], m[1..])
  {
  }

  /** One step of `KeptFrom`. */
  lemma KeptFromStep(m: seq<bool>, off: int)
    requires |m| > 0
    ensures m[0] ==> KeptFrom(m, off) == [off] + KeptFrom(m[1..], off + 1)
    ensures !m[0] ==> KeptFrom(m, off) == KeptFrom(m[1..], off + 1)
  {
  }

  /** Filtering a sequence extended by one entry extends the filtered sequence
      by that entry exactly when its mask bit holds. */
  lemma {:induction false} KeepSnoc<T>(s: seq<T>, m: seq<bool>, a: T, b: bool)
    requires |s| == |m|
    ensures Keep(s + [a], m + [b]) == Keep(s, m) + (if b then [a] else [])
    decreases |s|
  {
    if |s| > 0 {
      assert (s + [a])[1..] == s[1..] + [a];
      assert (m + [b])[1..] == m[1..] + [b];
      KeepSnoc(s[1..], m[1..], a, b);
    } else {
      assert s + [a] == [a] && m + [b] == [b];
    }
  }

  /** A value is kept exactly when some index of the mask holds it. */
  lemma {:induction false} KeepMember<T>(s: seq<T>, m: seq<bool>, x: T)
    requires |s| == |m|
    ensures x in Keep(s, m) <==> exists i :: 0 <= i < |s| && m[i] && s[i] == x
    decreases |s|
  {
    if |s| > 0 {
      KeepMember(s[1..], m[1..], x);
      if exists i :: 0 <= i < |s| && m[i] && s[i] == x {
        var i :| 0 <= i < |s| && m[i] && s[i] == x;
        if i > 0 {
          assert m[1..][i - 1] && s[1..][i - 1] == x;
        }
      }
      if exists i :: 0 <= i < |s| - 1 && m[1..][i] && s[1..][i] == x {
        var i :| 0 <= i < |s| - 1 && m[1..][i] && s[1..][i] == x;
        assert m[i + 1] && s[i + 1] == x;
      }
    }
  }

  /** Pointwise conjunction of two masks. */
  function And(a: seq<bool>, b: seq<bool>): (m: seq<bool>)
    requires |a| == |b|
    ensures |m| == |a| && forall i :: 0 <= i < |a| ==> (m[i] <==> a[i] && b[i])
  {
    seq(|a|, i requires 0 <= i < |a| => a[i] && b[i])
  }

  /** Filtering twice, the second time by a mask that was itself filtered by the
      first, is filtering once by both: the program's `a[uu][kk]` idiom. */
  lemma {:induction false} KeepKeep<T>(s: seq<T>, m1: seq<bool>, m2: seq<bool>)
    requires |s| == |m1| == |m2|
    ensures Keep(Keep(s, m1), Keep(m2, m1)) == Keep(s, And(m1, m2))
    decreases |s|
  {
    if |s| > 0 {
      var s', a', b' := s[1..], m1[1..], m2[1..];
      KeepKeep(s', a', b');
      assert And(m1, m2)[1..] == And(a', b');
      var inner, mask := Keep(s', a'), Keep(b', a');
      if m1[0] {
        assert Keep(s, m1) == [s[0]] + inner;
        assert Keep(m2, m1) == [m2[0]] + mask;
        assert ([s[0]] + inner)[1..] == inner;
        assert ([m2[0]] + mask)[1..] == mask;
        assert Keep([s[0]] + inner, [m2[0]] + mask) == (if m2[0] then [s[0]] else []) + Keep(inner, mask);
      } else {
        assert Keep(s, m1) == inner;
        assert Keep(m2, m1) == mask;
      }
    }
  }

  /** The NaN mask commutes with filtering. */
  lemma {:induction false} NotNaNKeep(vs: seq<Value>, m: seq<bool>)
    requires |vs| == |m|
    ensures NotNaN(Keep(vs, m)) == Keep(NotNaN(vs), m)
    decreases |vs|
  {
    if |vs| > 0 {
      NotNaNKeep(vs[1..], m[1..]);
      assert NotNaN(vs)[1..] == NotNaN(vs[1..]);
      var kept := Keep(vs, m);
      assert kept == (if m[0] then [vs[0]] else []) + Keep(vs[1..], m[1..]);
      if m[0] {
        assert NotNaN(kept) == [vs[0].Num?] + NotNaN(Keep(vs[1..], m[1..]));
      }
    }
  }

  /** `Numbers` are the payloads of the non-NaN entries, index for index. */
  lemma {:induction false} NumbersAt(vs: seq<Value>, k: nat)
    requires k < Count(NotNaN(vs))
    ensures Kept(NotNaN(vs))[k] < |vs| && vs[Kept(NotNaN(vs))[k]] == Num(Numbers(vs)[k])
    decreases |vs|
  {
    KeepAt(vs, NotNaN(vs), k);
    NumbersIsKeep(vs);
  }

  lemma {:induction false} NumbersIsKeep(vs: seq<Value>)
    ensures |Keep(vs, NotNaN(vs))| == |Numbers(vs)|
    ensures forall k :: 0 <= k < |Numbers(vs)| ==> Keep(vs, NotNaN(vs))[k] == Num(Numbers(vs)[k])
    decreases |vs|
  {
    if |vs| > 0 {
      NumbersIsKeep(vs[1..]);
      assert NotNaN(vs)[1..] == NotNaN(vs[1..]);
    }
  }

  // ---------------------------------------------------------------- numpy

  /** Smallest integer not below `x`. */
  function Ceil(x: real): (c: int)
    ensures x <= c as real < x + 1.0
  {
    -((-x).Floor)
  }

  /** `np.arange(start, stop, step)` over exact reals: the points `start + i*step`
      that lie before `stop`. A zero step raises. */
  function Arange(start: real, stop: real, step: real): (r: Outcome<seq<real>>)
    ensures r.Fail? <==> step == 0.0
    ensures r.Done? ==> forall i :: 0 <= i < |r.value| ==> r.value[i] == start + i as real * step
    ensures r.Done? && step > 0.0 ==>
      (forall i :: 0 <= i < |r.value| ==> r.value[i] < stop) && start + |r.value| as real * step >= stop
    ensures r.Done? && step < 0.0 ==>
      (forall i :: 0 <= i < |r.value| ==> r.value[i] > stop) && start + |r.value| as real * step <= stop
  {
    if step == 0.0 then Fail(ZeroDivision)
    else
      var c := Ceil((stop - start) / step);
      var n: nat := if c < 0 then 0 else c;
      var pts := seq(n, i requires 0 <= i < n => start + i as real * step);
      ArangeBounds(start, stop, step, pts);
      Done(pts)
  }

  lemma ArangeBounds(start: real, stop: real, step: real, pts: seq<real>)
    requires step != 0.0
    requires |pts| == (if Ceil((stop - start) / step) < 0 then 0 else Ceil((stop - start) / step))
    requires forall i :: 0 <= i < |pts| ==> pts[i] == start + i as real * step
    ensures step > 0.0 ==> (forall i :: 0 <= i < |pts| ==> pts[i] < stop) && start + |pts| as real * step >= stop
    ensures step < 0.0 ==> (forall i :: 0 <= i < |pts| ==> pts[i] > stop) && start + |pts| as real * step <= stop
  {
    var q := (stop - start) / step;
    var n := |pts|;
    assert q * step == stop - start;
    forall i | 0 <= i < n
      ensures step > 0.0 ==> pts[i] < stop
      ensures step < 0.0 ==> pts[i] > stop
    {
      assert (i as real) < q;
      ScaleStrict(i as real, q, step);
    }
    if n == 0 {
      assert q <= 0.0;
      ScaleWeak(q, 0.0, step);
    } else {
      assert n as real >= q;
      ScaleWeak(q, n as real, step);
    }
  }

  /** Multiplying a strict inequality by a nonzero factor. */
  lemma ScaleStrict(a: real, b: real, c: real)
    requires a < b
    ensures c > 0.0 ==> a * c < b * c
    ensures c < 0.0 ==> a * c > b * c
  {
    assert b * c - a * c == (b - a) * c;
  }

  /** Multiplying a weak inequality by a factor. */
  lemma ScaleWeak(a: real, b: real, c: real)
    requires a <= b
    ensures c >= 0.0 ==> a * c <= b * c
    ensures c <= 0.0 ==> a * c >= b * c
  {
    assert b * c - a * c == (b - a) * c;
  }

  predicate StrictlyIncreasing(s: seq<real>) {
    forall i, j :: 0 <= i < j < |s| ==> s[i] < s[j]
  }

  /** Appending a value above every entry keeps a sequence strictly increasing. */
  lemma IncreasingSnoc(s: seq<real>, x: real)
    requires StrictlyIncreasing(s) && forall k :: 0 <= k < |s| ==> s[k] < x
    ensures StrictlyIncreasing(s + [x])
  {
    forall i, j | 0 <= i < j < |s| + 1
      ensures (s + [x])[i] < (s + [x])[j]
    {
      assert (s + [x])[i] == s[i];
    }
  }

  /** Filtering keeps a strictly increasing sequence strictly increasing. */
  lemma KeepIncreasing(s: seq<real>, m: seq<bool>)
    requires |s| == |m| && StrictlyIncreasing(s)
    ensures StrictlyIncreasing(Keep(s, m))
  {
    forall k1, k2 | 0 <= k1 < k2 < Count(m)
      ensures Keep(s, m)[k1] < Keep(s, m)[k2]
    {
      KeepAt(s, m, k1);
      KeepAt(s, m, k2);
    }
  }

  /** A positive step gives strictly increasing points. */
  lemma ArangeIncreasing(start: real, stop: real, step: real)
    requires step > 0.0
    ensures Arange(start, stop, step).Done? && StrictlyIncreasing(Arange(start, stop, step).value)
  {
    var pts := Arange(start, stop, step).value;
    forall i, j | 0 <= i < j < |pts|
      ensures pts[i] < pts[j]
    {
      assert pts[j] - pts[i] == (j - i) as real * step;
    }
  }

  /** `np.digitize(x, bins)` for increasing `bins`: the number of edges at or
      below `x` (the first edge index strictly above `x`). */
  function Digitize(x: real, bins: seq<real>): (j: nat)
    ensures j <= |bins|
  {
    if |bins| == 0 || x < bins[0] then 0 else 1 + Digitize(x, bins[1..])
  }

  /** For increasing edges, `Digitize(x) == j` exactly when `x` lies in the
      half-open interval `[bins[j-1], bins[j])`, below `bins[0]` for `j = 0`, and at
      or above the last edge for `j = |bins|`. */
  lemma {:induction false} DigitizeInterval(x: real, bins: seq<real>, j: nat)
    requires StrictlyIncreasing(bins) && j <= |bins|
    ensures Digitize(x, bins) == j <==>
      (j == 0 || bins[j - 1] <= x) && (j == |bins| || x < bins[j])
    decreases |bins|
  {
    if |bins| > 0 {
      if x < bins[0] {
        if j > 0 {
          assert bins[0] <= bins[j - 1];
        }
      } else {
        if j > 0 {
          DigitizeInterval(x, bins[1..], j - 1);
        } else {
          DigitizeRange(x, bins[1..]);
        }
      }
    }
  }

  lemma {:induction false} DigitizeRange(x: real, bins: seq<real>)
    ensures Digitize(x, bins) <= |bins|
  {
  }

  // ---------------------------------------------------------------- columns

  /** Elementwise `s * k`. */
  function Scale(s: seq<real>, k: real): (r: seq<real>)
    ensures |r| == |s| && forall i :: 0 <= i < |s| ==> r[i] == s[i] * k
  {
    seq(|s|, i requires 0 <= i < |s| => s[i] * k)
  }

  /** Elementwise `(s - c) * k`: translation by a reference coordinate, then a unit change. */
  function ShiftScale(s: seq<real>, c: real, k: real): (r: seq<real>)
    ensures |r| == |s| && forall i :: 0 <= i < |s| ==> r[i] == (s[i] - c) * k
  {
    seq(|s|, i requires 0 <= i < |s| => (s[i] - c) * k)
  }

  /** A column of zeros, `np.zeros(n)`. */
  function Zeros(n: nat): (r: seq<real>)
    ensures |r| == n && forall i :: 0 <= i < n ==> r[i] == 0.0
  {
    seq(n, i => 0.0)
  }

  /** `s[::k]` for a non-zero step: every k-th element from the front, or, for a
      negative step, every (-k)-th element from the back. */
  function Stride<T>(s: seq<T>, k: int): (r: seq<T>)
    requires k != 0
    ensures k > 0 ==> |r| == (|s| + k - 1) / k && forall i :: 0 <= i < |r| ==> i * k < |s| && r[i] == s[i * k]
    ensures k < 0 ==> (|r| == (|s| - k - 1) / (-k) &&
      forall i :: 0 <= i < |r| ==> 0 <= |s| - 1 - i * (-k) < |s| && r[i] == s[|s| - 1 - i * (-k)])
    ensures k > 0 ==> r == Every(s, k)
    ensures k < 0 ==> r == Every(Reverse(s), -k)
  {
    if k > 0 then Every(s, k) else Every(Reverse(s), -k)
  }

  /** `s` back to front. */
  function Reverse<T>(s: seq<T>): (r: seq<T>)
    ensures |r| == |s| && forall i :: 0 <= i < |s| ==> r[i] == s[|s| - 1 - i]
  {
    seq(|s|, i requires 0 <= i < |s| => s[|s| - 1 - i])
  }

  /** `s[::step]` for a positive step: the elements at indices `0, step, 2*step, ...`,
      and no index below `|s|` is skipped past. */
  function Every<T>(s: seq<T>, step: nat): (r: seq<T>)
    requires step > 0
    ensures |r| == (|s| + step - 1) / step
    ensures forall i :: 0 <= i < |r| ==> i * step < |s| && r[i] == s[i * step]
    ensures |s| <= |r| * step
    ensures |s| > 0 ==> |r| > 0
  {
    var n := (|s| + step - 1) / step;
    EveryBound(|s|, step, n);
    seq(n, i requires 0 <= i < n => s[i * step])
  }

  lemma EveryBound(len: nat, step: nat, n: nat)
    requires step > 0 && n == (len + step - 1) / step
    ensures forall i :: 0 <= i < n ==> i * step < len
    ensures len <= n * step
    ensures len > 0 ==> n > 0
  {
    var rem := (len + step - 1) % step;
    assert len + step - 1 == n * step + rem;
    assert rem < step;
    forall i | 0 <= i < n ensures i * step < len {
      assert (i + 1) * step <= n * step;
    }
  }
}
