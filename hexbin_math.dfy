/**
 * The arithmetic the hexbin layers share: the sentinel min/max fold of
 * `_getBounds`, the value extent d3 computes over the bins, the evenly spaced
 * colour domain of `_linearlySpace`, the `[0, max bin length]` domain of the
 * first versions, and the corner projection of `_translateBounds`.
 */
module HexbinMath {
  import opened Wrappers
  import opened Geo
  import opened Scales

  /** A bin made by d3-hexbin: its centre and the number of points in it (`length`). */
  datatype Bin = Bin(x: real, y: real, size: nat)

  /** `{o: d, point: [x, y]}`: a datum with its projected layer point. */
  datatype Projected<D> = Projected(o: D, point: Point)

  /** An accessor read through another: `lng(geo(d))`. */
  function Through(f: Located -> Pair, g: Pair -> real): (h: Located -> real)
    ensures forall a :: h(a) == g(f(a))
  {
    a => g(f(a))
  }

  /** The x pixel of a projected datum, `element.point[0]`. */
  function PointX<D>(p: Projected<D>): real { p.point.x }

  /** The y pixel of a projected datum, `element.point[1]`. */
  function PointY<D>(p: Projected<D>): real { p.point.y }

  /**
   * The `data.map` of `_redraw`: each datum with the layer point of its
   * `[lng, lat]` as the configured accessors read it.
   */
  function ProjectAll<D>(data: seq<D>, lng: D -> real, lat: D -> real, toLayer: LatLng -> Point): (r: seq<Projected<D>>)
    ensures |r| == |data|
    ensures forall i | 0 <= i < |data| :: r[i].o == data[i] && r[i].point == Project(Point(lng(data[i]), lat(data[i])), toLayer)
  {
    seq(|data|, i requires 0 <= i < |data| => Projected(data[i], Project(Point(lng(data[i]), lat(data[i])), toLayer)))
  }

  /** The start of the min side of the bounds fold. */
  const LowSentinel: real := 999.0

  /** The start of the max side of the bounds fold. */
  const HighSentinel: real := -999.0

  /**
   * One field of every element, read through an accessor: a coordinate for
   * `_getBounds`, `options.value(d)` of every bin for `d3.extent`.
   */
  function Coords<T, U>(data: seq<T>, f: T -> U): (r: seq<U>)
    ensures |r| == |data|
    ensures forall i | 0 <= i < |data| :: r[i] == f(data[i])
  {
    seq(|data|, i requires 0 <= i < |data| => f(data[i]))
  }

  /** `Math.min` folded over `xs`, starting from 999. */
  function Lower(xs: seq<real>): (m: real)
    ensures m <= LowSentinel
    ensures forall i | 0 <= i < |xs| :: m <= xs[i]
    ensures m == LowSentinel || m in xs
  {
    if xs == [] then LowSentinel
    else Min(Lower(xs[..|xs| - 1]), xs[|xs| - 1])
  }

  /** `Math.max` folded over `xs`, starting from -999. */
  function Upper(xs: seq<real>): (m: real)
    ensures HighSentinel <= m
    ensures forall i | 0 <= i < |xs| :: xs[i] <= m
    ensures m == HighSentinel || m in xs
  {
    if xs == [] then HighSentinel
    else Max(Upper(xs[..|xs| - 1]), xs[|xs| - 1])
  }

  /**
   * The `forEach` of `_getBounds`: `bounds` starts at `[[999, 999], [-999, -999]]`
   * and each element lowers the min corner and raises the max corner.
   */
  method FoldBounds<T>(data: seq<T>, fx: T -> real, fy: T -> real) returns (b: Box)
    ensures b.min == Point(Lower(Coords(data, fx)), Lower(Coords(data, fy)))
    ensures b.max == Point(Upper(Coords(data, fx)), Upper(Coords(data, fy)))
  {
    ghost var xs, ys := Coords(data, fx), Coords(data, fy);
    var minX, minY, maxX, maxY := LowSentinel, LowSentinel, HighSentinel, HighSentinel;
    for i := 0 to |data|
      invariant minX == Lower(xs[..i]) && minY == Lower(ys[..i])
      invariant maxX == Upper(xs[..i]) && maxY == Upper(ys[..i])
    {
      assert xs[..i + 1][..i] == xs[..i] && ys[..i + 1][..i] == ys[..i];
      var x := fx(data[i]);
      var y := fy(data[i]);
      minX := Min(minX, x);
      minY := Min(minY, y);
      maxX := Max(maxX, x);
      maxY := Max(maxY, y);
    }
    assert xs[..|data|] == xs && ys[..|data|] == ys;
    b := Box(Point(minX, minY), Point(maxX, maxY));
  }

  /**
   * What `_getBounds` promises of non-empty data: the box encloses every
   * point, each min end is a data coordinate or the sentinel 999 and each max
   * end a data coordinate or -999, and min is at most max on both axes.
   */
  ghost predicate SentinelBounds<T>(b: Box, data: seq<T>, fx: T -> real, fy: T -> real)
  {
    && (forall i | 0 <= i < |data| :: Encloses(b, Point(fx(data[i]), fy(data[i]))))
    && b.min.x <= LowSentinel && b.min.y <= LowSentinel
    && HighSentinel <= b.max.x && HighSentinel <= b.max.y
    && (b.min.x == LowSentinel || exists i | 0 <= i < |data| :: b.min.x == fx(data[i]))
    && (b.min.y == LowSentinel || exists i | 0 <= i < |data| :: b.min.y == fy(data[i]))
    && (b.max.x == HighSentinel || exists i | 0 <= i < |data| :: b.max.x == fx(data[i]))
    && (b.max.y == HighSentinel || exists i | 0 <= i < |data| :: b.max.y == fy(data[i]))
    && b.min.x <= b.max.x && b.min.y <= b.max.y
  }

  /** The whole of `_getBounds`, for any pair of coordinate accessors. */
  method GetBoundsBy<T>(data: Option<seq<T>>, fx: T -> real, fy: T -> real) returns (b: Box)
    ensures data.None? || |data.value| < 1 ==> b == ZeroBox
    ensures data.Some? && 1 <= |data.value| ==> SentinelBounds(b, data.value, fx, fy)
  {
    if data.None? || |data.value| < 1 {
      return ZeroBox;
    }
    b := FoldBounds(data.value, fx, fy);
    ghost var xs, ys := Coords(data.value, fx), Coords(data.value, fy);
    assert b.min.x <= xs[0] <= b.max.x && b.min.y <= ys[0] <= b.max.y;
  }

  /**
   * `d3.extent(values)`: the least and the greatest of the values that are not
   * null, undefined or NaN (here: `None`); both ends are absent when there are none.
   */
  function ValueExtent(vs: seq<Option<real>>): (e: (Option<real>, Option<real>))
    ensures e.0.None? <==> e.1.None?
    ensures e.0.None? <==> forall i | 0 <= i < |vs| :: vs[i].None?
    ensures e.0.Some? ==> e.0 in vs && e.1 in vs
    ensures e.0.Some? ==> forall i | 0 <= i < |vs| && vs[i].Some? :: e.0.value <= vs[i].value <= e.1.value
  {
    if vs == [] then (None, None)
    else
      var e := ValueExtent(vs[..|vs| - 1]);
      var v := vs[|vs| - 1];
      assert vs == vs[..|vs| - 1] + [v];
      if v.None? then e
      else if e.0.None? then (v, v)
      else (Some(Min(e.0.value, v.value)), Some(Max(e.1.value, v.value)))
  }

  /** Some value is present (not null, undefined or NaN). */
  predicate AnyPresent(vs: seq<Option<real>>)
  {
    exists i | 0 <= i < |vs| :: vs[i].Some?
  }

  /** All the values that are present are the same number. */
  predicate AllEqual(vs: seq<Option<real>>)
  {
    forall i, j | 0 <= i < |vs| && 0 <= j < |vs| && vs[i].Some? && vs[j].Some? :: vs[i].value == vs[j].value
  }

  /** The two ends of `d3.extent` agree exactly when every present value is the same. */
  lemma {:induction false} ExtentCollapses(vs: seq<Option<real>>)
    ensures ValueExtent(vs).0 == ValueExtent(vs).1 <==> AllEqual(vs)
  {
    var e := ValueExtent(vs);
    if e.0.Some? && AllEqual(vs) {
      var i :| 0 <= i < |vs| && vs[i] == e.0;
      var j :| 0 <= j < |vs| && vs[j] == e.1;
      assert vs[i].value == vs[j].value;
    }
    if e.0 == e.1 && e.0.Some? {
      forall i, j | 0 <= i < |vs| && 0 <= j < |vs| && vs[i].Some? && vs[j].Some?
        ensures vs[i].value == vs[j].value
      {
        assert e.0.value <= vs[i].value <= e.1.value;
        assert e.0.value <= vs[j].value <= e.1.value;
      }
    }
  }

  /**
   * The extent `_createHexagons` works with: `d3.extent` of the values, each
   * missing end set to 0. With a value present, both ends are values, the
   * least and the greatest; they agree exactly when all values are equal.
   */
  function ZeroedExtent(vs: seq<Option<real>>): (e: (real, real))
    ensures !AnyPresent(vs) ==> e == (0.0, 0.0)
    ensures AnyPresent(vs) ==> Some(e.0) in vs && Some(e.1) in vs
    ensures forall i | 0 <= i < |vs| && vs[i].Some? :: e.0 <= vs[i].value <= e.1
    ensures e.0 == e.1 <==> AllEqual(vs)
  {
    var x := ValueExtent(vs);
    ExtentCollapses(vs);
    (x.0.GetOr(0.0), x.1.GetOr(0.0))
  }

  /** The step of `_linearlySpace`: `(to - from) / Math.max(length - 1, 1)`. */
  function Step(from: real, to: real, length: nat): real
  {
    (to - from) / Max(length as real - 1.0, 1.0)
  }

  /** The array `_linearlySpace(from, to, length)` fills: `arr[i] = from + i * step`. */
  function Spaced(from: real, to: real, length: nat): (r: seq<real>)
    ensures |r| == length
  {
    seq(length, i requires 0 <= i < length => from + i as real * Step(from, to, length))
  }

  /** `_linearlySpace`: fills a fresh array of `length` numbers, `arr[i] = from + i * step`. */
  method LinearlySpace(from: real, to: real, length: nat) returns (r: seq<real>)
    ensures r == Spaced(from, to, length)
  {
    var arr := new real[length];
    var step := (to - from) / Max(length as real - 1.0, 1.0);
    assert step == Step(from, to, length);
    ghost var spaced := Spaced(from, to, length);
    for i := 0 to length
      invariant arr.Length == |spaced|
      invariant arr[..i] == spaced[..i]
    {
      assert spaced[i] == from + i as real * step;
      arr[i] := from + i as real * step;
      assert arr[..i + 1] == arr[..i] + [arr[i]];
    }
    assert arr[..length] == arr[..];
    r := arr[..];
  }

  /**
   * The spaced domain starts at `from`, rises by equal steps, and — over exact
   * arithmetic, with at least two elements — ends exactly at `to`.
   */
  lemma {:induction false} SpacedEnds(from: real, to: real, length: nat)
    ensures 1 <= length ==> Spaced(from, to, length)[0] == from
    ensures 2 <= length ==> Spaced(from, to, length)[length - 1] == to
    ensures forall i | 0 <= i < length - 1 ::
              Spaced(from, to, length)[i + 1] - Spaced(from, to, length)[i] == Step(from, to, length)
  {
    var r := Spaced(from, to, length);
    if 2 <= length {
      var n := length as real - 1.0;
      assert Max(n, 1.0) == n;
      assert (length - 1) as real == n;
      assert Step(from, to, length) == (to - from) / n;
      calc {
        r[length - 1];
        from + (length - 1) as real * Step(from, to, length);
        from + n * ((to - from) / n);
        { assert n * ((to - from) / n) == to - from; }
        to;
      }
    }
    forall i | 0 <= i < length - 1 ensures r[i + 1] - r[i] == Step(from, to, length) {
      assert r[i + 1] - r[i] == ((i + 1) as real - i as real) * Step(from, to, length);
    }
  }

  /** From a lower to a higher end, the spaced domain never falls. */
  lemma {:induction false} SpacedAscends(from: real, to: real, length: nat)
    requires from <= to
    ensures forall i, j | 0 <= i <= j < length :: Spaced(from, to, length)[i] <= Spaced(from, to, length)[j]
  {
    var r := Spaced(from, to, length);
    var step := Step(from, to, length);
    assert 0.0 <= step by {
      assert 1.0 <= Max(length as real - 1.0, 1.0);
    }
    forall i, j | 0 <= i <= j < length ensures r[i] <= r[j] {
      assert r[j] - r[i] == (j - i) as real * step;
    }
  }

  /**
   * `_colorScale.domain(_linearlySpace(lo, hi, _colorScale.range().length))`:
   * the scale keeps its range and gets one evenly spaced domain stop per colour.
   */
  function Respaced<R>(scale: Scale<R>, lo: real, hi: real): (r: Scale<R>)
    ensures r.range == scale.range && |r.domain| == |scale.range|
  {
    scale.(domain := Spaced(lo, hi, |scale.range|))
  }

  /**
   * The respaced domain runs from `lo` (given a colour) to `hi` (given two or
   * more) and, when `lo <= hi`, never falls: each colour of the range gets a
   * stop, in order.
   */
  lemma {:induction false} RespacedSpans<R>(scale: Scale<R>, lo: real, hi: real)
    ensures var d := Respaced(scale, lo, hi).domain;
            && (1 <= |d| ==> d[0] == lo)
            && (2 <= |d| ==> d[|d| - 1] == hi)
            && (lo <= hi ==> forall i, j | 0 <= i <= j < |d| :: d[i] <= d[j])
  {
    SpacedEnds(lo, hi, |scale.range|);
    if lo <= hi {
      SpacedAscends(lo, hi, |scale.range|);
    }
  }

  /**
   * `bins.reduce(function(val, element) { return Math.max(val, element.length); }, 0)`:
   * the size of the largest bin, 0 when there are no bins.
   */
  function MaxBinSize(bins: seq<Bin>): (m: nat)
    ensures forall i | 0 <= i < |bins| :: bins[i].size <= m
    ensures bins == [] ==> m == 0
    ensures bins != [] ==> exists i | 0 <= i < |bins| :: m == bins[i].size
  {
    if bins == [] then 0
    else
      var m := MaxBinSize(bins[..|bins| - 1]);
      var last := bins[|bins| - 1].size;
      assert bins[..|bins| - 1] != [] ==> exists i | 0 <= i < |bins| - 1 :: m == bins[i].size;
      if m <= last then last else m
  }

  /**
   * `_translateBounds(bounds)`: projects the north-west corner `(min lng, max lat)`
   * and the south-east corner `(max lng, min lat)` and boxes them with `L.bounds`.
   */
  function TranslateBounds(b: Box, toLayer: LatLng -> Point): Box
  {
    BoundsOf(Project(Point(b.min.x, b.max.y), toLayer), Project(Point(b.max.x, b.min.y), toLayer))
  }

  /**
   * Under a Web-Mercator-like projection, the projected north-west corner is
   * the min corner of the screen box, the projected south-east corner its max
   * corner, and every `[lng, lat]` inside the geographic bounds projects inside
   * the screen box.
   */
  lemma {:induction false} TranslateBoundsEncloses(b: Box, toLayer: LatLng -> Point, p: Point)
    requires ScreenMonotone(toLayer)
    requires Encloses(b, p)
    ensures TranslateBounds(b, toLayer).min == Project(Point(b.min.x, b.max.y), toLayer)
    ensures TranslateBounds(b, toLayer).max == Project(Point(b.max.x, b.min.y), toLayer)
    ensures Encloses(TranslateBounds(b, toLayer), Project(p, toLayer))
  {
    var nw, se := LatLng(b.max.y, b.min.x), LatLng(b.min.y, b.max.x);
    var at := LatLng(p.y, p.x);
    assert toLayer(nw).x <= toLayer(at).x <= toLayer(se).x;
    assert toLayer(nw).y <= toLayer(at).y <= toLayer(se).y;
  }
}
