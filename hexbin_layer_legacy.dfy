/**
 * The first `L.HexbinLayer` (`src/js/HexbinLayer.js`): data elements carry a
 * `geo` pair read through the `lng`/`lat` accessors, the bounds are taken over
 * geographic coordinates and projected corner by corner, and the colour domain
 * is `[0, size of the largest bin]`. The bins d3-hexbin makes and the map's
 * `latLngToLayerPoint` are inputs of the operations that use them.
 */
module HexbinLayerLegacy {
  import opened Wrappers
  import opened Geo
  import opened Scales
  import opened HexbinMath

  /** The options `L.setOptions` merges over the defaults; `None` keeps the default. */
  datatype HexbinOptions = HexbinOptions(
    geo: Option<Located -> Pair>,
    lng: Option<Pair -> real>,
    lat: Option<Pair -> real>,
    colorRange: Option<seq<Color>>)

  const DefaultColorRange: seq<Color> := ["#f7fbff", "#08306b"]

  /** The default `geo` accessor, `function(d) { return d.geo; }`. */
  function DefaultGeo(d: Located): Pair { d.geo }

  /** The colour scale after `_createHexagons` has seen `bins`: domain `[0, largest bin]`. */
  function SizeDomain(scale: Scale<Color>, bins: seq<Bin>): (r: Scale<Color>)
    ensures r.range == scale.range && |r.domain| == 2 && r.domain[0] == 0.0
    ensures forall b | b in bins :: b.size as real <= r.domain[1]
    ensures bins == [] ==> r.domain[1] == 0.0
    ensures bins != [] ==> exists b | b in bins :: r.domain[1] == b.size as real
  {
    var m := MaxBinSize(bins);
    assert forall b | b in bins :: b.size <= m;
    scale.(domain := [0.0, m as real])
  }

  /**
   * `_translateBounds(bounds)`: the screen box of the projected north-west
   * corner `(min lng, max lat)` and south-east corner `(max lng, min lat)`.
   * For ordered bounds under a Web-Mercator-like projection those are its min
   * and max corners, and every position inside the bounds lands inside it.
   */
  method TranslateBoundsOf(b: Box, toLayer: LatLng -> Point) returns (r: Box)
    ensures r == BoundsOf(Project(Point(b.min.x, b.max.y), toLayer), Project(Point(b.max.x, b.min.y), toLayer))
    ensures ScreenMonotone(toLayer) && b.min.x <= b.max.x && b.min.y <= b.max.y ==>
              && r.min == Project(Point(b.min.x, b.max.y), toLayer)
              && r.max == Project(Point(b.max.x, b.min.y), toLayer)
              && forall p | Encloses(b, p) :: Encloses(r, Project(p, toLayer))
  {
    var nw := Project(Point(b.min.x, b.max.y), toLayer);
    var se := Project(Point(b.max.x, b.min.y), toLayer);
    r := BoundsOf(nw, se);
    if ScreenMonotone(toLayer) && b.min.x <= b.max.x && b.min.y <= b.max.y {
      TranslateBoundsEncloses(b, toLayer, b.min);
      forall p | Encloses(b, p) ensures Encloses(r, Project(p, toLayer)) {
        TranslateBoundsEncloses(b, toLayer, p);
      }
    }
  }

  class HexbinLayer {
    var geo: Located -> Pair
    var lng: Pair -> real
    var lat: Pair -> real
    var colorScale: Scale<Color>
    /** `_data`, which `onRemove` sets to null. */
    var data: Option<seq<Located>>

    /** Whether `_map` is set. */
    var attached: bool
    /** Whether `_container`, the layer's svg element, is set. */
    var hasContainer: bool

    /** On a map exactly when it has its container. */
    ghost predicate Valid()
      reads this
    {
      attached == hasContainer
    }

    /** `initialize(options)`: no data, a linear colour scale over the colour range. */
    constructor(options: HexbinOptions)
      ensures Valid()
      ensures forall d :: geo(d) == options.geo.GetOr(DefaultGeo)(d)
      ensures forall d :: lng(d) == options.lng.GetOr(DefaultLng)(d) && lat(d) == options.lat.GetOr(DefaultLat)(d)
      ensures colorScale == Scale([0.0, 1.0], options.colorRange.GetOr(DefaultColorRange))
      ensures data == Some([]) && !attached && !hasContainer
    {
      geo := options.geo.GetOr(DefaultGeo);
      lng := options.lng.GetOr(DefaultLng);
      lat := options.lat.GetOr(DefaultLat);
      colorScale := Scale([0.0, 1.0], options.colorRange.GetOr(DefaultColorRange));
      data := Some([]);
      attached := false;
      hasContainer := false;
    }

    /**
     * `_getBounds(data)`: all zeros for missing or empty data, otherwise the
     * sentinel fold over `[lng(geo(d)), lat(geo(d))]`.
     */
    method GetBounds(d: Option<seq<Located>>) returns (b: Box)
      ensures d.None? || |d.value| < 1 ==> b == ZeroBox
      ensures d.Some? && 1 <= |d.value| ==> SentinelBounds(b, d.value, Through(geo, lng), Through(geo, lat))
    {
      b := GetBoundsBy(d, Through(geo, lng), Through(geo, lat));
    }

    /**
     * `_createHexagons(g)`: sets the colour domain to `[0, largest bin]`; with
     * no data, `_data.map` throws before the domain is touched.
     */
    method CreateHexagons(bins: seq<Bin>) returns (r: Outcome)
      modifies this`colorScale
      ensures data.None? ==> r == Fail(TypeError) && colorScale == old(colorScale)
      ensures data.Some? ==> r == Pass && colorScale == SizeDomain(old(colorScale), bins)
    {
      if data.None? {
        return Fail(TypeError);
      }
      var max := 0;
      for i := 0 to |bins|
        invariant max == MaxBinSize(bins[..i])
      {
        assert bins[..i + 1][..i] == bins[..i];
        max := if max <= bins[i].size then bins[i].size else max;
      }
      assert bins[..|bins|] == bins;
      colorScale := colorScale.(domain := [0.0, max as real]);
      r := Pass;
    }

    /**
     * `_redraw()`: nothing off the map. On it: the geographic bounds of the
     * data, the screen box they project to, then the hexagons, which throw
     * when there is no data.
     */
    method Redraw(bins: seq<Bin>, toLayer: LatLng -> Point) returns (r: Outcome, geoBox: Option<Box>, box: Option<Box>)
      requires Valid()
      modifies this`colorScale
      ensures !attached ==> r == Pass && geoBox.None? && box.None? && colorScale == old(colorScale)
      ensures attached ==> geoBox.Some? && box.Some?
      ensures attached ==> box.value == BoundsOf(Project(Point(geoBox.value.min.x, geoBox.value.max.y), toLayer),
                                                 Project(Point(geoBox.value.max.x, geoBox.value.min.y), toLayer))
      ensures attached && (data.None? || data.value == []) ==> geoBox == Some(ZeroBox)
      ensures attached && data.Some? && data.value != [] ==>
                SentinelBounds(geoBox.value, data.value, Through(geo, lng), Through(geo, lat))
      ensures attached && data.None? ==> r == Fail(TypeError) && colorScale == old(colorScale)
      ensures attached && data.Some? ==> r == Pass && colorScale == SizeDomain(old(colorScale), bins)
    {
      if !attached {
        return Pass, None, None;
      }
      var g := GetBounds(data);
      var b := TranslateBoundsOf(g, toLayer);
      geoBox, box := Some(g), Some(b);
      r := CreateHexagons(bins);
    }

    /**
     * `onAdd(map)`, called by Leaflet on a layer that is not on a map: creates
     * the container and draws.
     */
    method OnAdd(bins: seq<Bin>, toLayer: LatLng -> Point) returns (r: Outcome)
      requires Valid() && !attached
      modifies this`attached, this`hasContainer, this`colorScale
      ensures Valid() && attached && hasContainer
      ensures data.None? ==> r == Fail(TypeError) && colorScale == old(colorScale)
      ensures data.Some? ==> r == Pass && colorScale == SizeDomain(old(colorScale), bins)
    {
      attached := true;
      // `_initContainer` answers a new svg element only when there is none yet.
      hasContainer := !hasContainer;
      var geoBox, box;
      r, geoBox, box := Redraw(bins, toLayer);
    }

    /** `onRemove(map)` as written: drops the container, the map and the data. */
    method OnRemove()
      modifies this`attached, this`hasContainer, this`data
      ensures Valid() && !attached && !hasContainer && data.None?
    {
      hasContainer := false;
      attached := false;
      data := None;
    }

    /** `onRemove(map)` as the later versions have it: the data is kept for a later `onAdd`. */
    method OnRemoveKeepingData()
      modifies this`attached, this`hasContainer
      ensures Valid() && !attached && !hasContainer
    {
      hasContainer := false;
      attached := false;
    }

    /** `update(data)`: stores the data (none becomes empty) and redraws. */
    method Update(d: Option<seq<Located>>, bins: seq<Bin>, toLayer: LatLng -> Point) returns (r: Outcome)
      requires Valid()
      modifies this`data, this`colorScale
      ensures Valid()
      ensures data == Some(d.GetOr([])) && r == Pass
      ensures colorScale == if attached then SizeDomain(old(colorScale), bins) else old(colorScale)
    {
      data := Some(d.GetOr([]));
      var geoBox, box;
      r, geoBox, box := Redraw(bins, toLayer);
    }
  }

  /**
   * Taking the layer off the map and adding it back: the first draw succeeds,
   * the second throws, because `onRemove` has nulled the data.
   */
  method RemoveThenAdd(options: HexbinOptions, bins: seq<Bin>, toLayer: LatLng -> Point)
    returns (first: Outcome, second: Outcome)
    ensures first == Pass && second == Fail(TypeError)
  {
    var layer := new HexbinLayer(options);
    first := layer.OnAdd(bins, toLayer);
    layer.OnRemove();
    second := layer.OnAdd(bins, toLayer);
  }

  /**
   * The same sequence with the data kept on removal: both draws succeed and
   * the second recolours from the bins it is given.
   */
  method RemoveThenAddKeepingData(options: HexbinOptions, d: seq<Located>, bins: seq<Bin>, toLayer: LatLng -> Point)
    returns (first: Outcome, second: Outcome, kept: Option<seq<Located>>, domain: seq<real>)
    ensures first == Pass && second == Pass && kept == Some(d)
    ensures domain == [0.0, MaxBinSize(bins) as real]
  {
    var layer := new HexbinLayer(options);
    first := layer.OnAdd(bins, toLayer);
    var _ := layer.Update(Some(d), bins, toLayer);
    layer.OnRemoveKeepingData();
    second := layer.OnAdd(bins, toLayer);
    kept := layer.data;
    domain := layer.colorScale.domain;
  }
}
