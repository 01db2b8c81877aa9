/**
 * `L.HexbinLayer` of the source tree (`src/js/hexbin/HexbinLayer.js`): the
 * hexbin layer before the bundled version, built on `L.Class` and d3 v3. Its
 * colour domain has no separation of equal ends, and it keeps the positions of
 * its data in `_latlngs`. The bins d3-hexbin makes and the map's
 * `latLngToLayerPoint` are inputs of the operations that use them.
 */
module HexbinLayer {
  import opened Wrappers
  import opened Geo
  import opened Scales
  import opened HexbinMath

  /** The options `L.setOptions` merges over the defaults; `None` keeps the default. */
  datatype HexbinOptions = HexbinOptions(
    lng: Option<Pair -> real>,
    lat: Option<Pair -> real>,
    value: Option<Bin -> Option<real>>,
    valueFloor: Option<real>,
    valueCeil: Option<real>,
    colorRange: Option<seq<Color>>)

  const DefaultColorRange: seq<Color> := ["#f7fbff", "#08306b"]

  /** The default `value`, `d.length`: the number of points in the bin. */
  function BinLength(b: Bin): Option<real>
  {
    Some(b.size as real)
  }

  /**
   * The ends `_createHexagons` gives the colour domain: the extent of the bin
   * values, 0 for a missing end, then `valueFloor` and `valueCeil` where those
   * are set. Without an override, the low end is the least value and the high
   * end the greatest, both 0 when no value is present.
   */
  function DomainEnds(values: seq<Option<real>>, valueFloor: Option<real>, valueCeil: Option<real>): (ends: (real, real))
    ensures valueFloor.Some? ==> ends.0 == valueFloor.value
    ensures valueCeil.Some? ==> ends.1 == valueCeil.value
    ensures valueFloor.None? ==> forall i | 0 <= i < |values| && values[i].Some? :: ends.0 <= values[i].value
    ensures valueCeil.None? ==> forall i | 0 <= i < |values| && values[i].Some? :: values[i].value <= ends.1
    ensures AnyPresent(values) && valueFloor.None? ==> Some(ends.0) in values
    ensures AnyPresent(values) && valueCeil.None? ==> Some(ends.1) in values
    ensures !AnyPresent(values) ==> ends == (valueFloor.GetOr(0.0), valueCeil.GetOr(0.0))
    ensures valueFloor.None? && valueCeil.None? ==> ends.0 <= ends.1
  {
    var e := ZeroedExtent(values);
    (valueFloor.GetOr(e.0), valueCeil.GetOr(e.1))
  }

  /**
   * Equal ends stay equal here: without overrides the domain collapses to a
   * single point exactly when every present value is the same (or none is).
   */
  lemma {:induction false} DomainCollapsesOnEqualValues(values: seq<Option<real>>)
    ensures DomainEnds(values, None, None).0 == DomainEnds(values, None, None).1 <==> AllEqual(values)
  {
    ExtentCollapses(values);
  }

  /** The colour scale after `_createHexagons` has seen `bins`. */
  function Recolored(scale: Scale<Color>, bins: seq<Bin>, value: Bin -> Option<real>,
                     valueFloor: Option<real>, valueCeil: Option<real>): Scale<Color>
  {
    var ends := DomainEnds(Coords(bins, value), valueFloor, valueCeil);
    Respaced(scale, ends.0, ends.1)
  }

  /**
   * `_latlngs` as written: `L.latLng(d[0], d[1])` reads the first element as
   * the latitude, while the default accessors read it as the longitude.
   */
  function LatLngsAsWritten(data: seq<Pair>): (r: seq<LatLng>)
    ensures |r| == |data|
    ensures forall i | 0 <= i < |data| :: r[i] == LatLng(data[i].first, data[i].second)
  {
    seq(|data|, i requires 0 <= i < |data| => LatLng(data[i].first, data[i].second))
  }

  /**
   * With the default accessors, the datum `[10, 20]` lies at longitude 10 and
   * latitude 20, but `_latlngs` reports latitude 10 and longitude 20.
   */
  lemma LatLngsAsWrittenSwapsAxes()
    ensures var data := [Pair(10.0, 20.0)];
            && LatLngsOf(data, DefaultLat, DefaultLng) == [LatLng(20.0, 10.0)]
            && LatLngsAsWritten(data) == [LatLng(10.0, 20.0)]
            && LatLngsAsWritten(data) != LatLngsOf(data, DefaultLat, DefaultLng)
  {
    var data := [Pair(10.0, 20.0)];
    assert LatLngsOf(data, DefaultLat, DefaultLng)[0] == LatLng(20.0, 10.0);
    assert LatLngsAsWritten(data)[0] == LatLng(10.0, 20.0);
  }

  /** The two readings agree only on data whose two coordinates are equal. */
  lemma LatLngsAsWrittenAgreesOnlyOnDiagonal(data: seq<Pair>)
    ensures LatLngsAsWritten(data) == LatLngsOf(data, DefaultLat, DefaultLng) <==>
              forall i | 0 <= i < |data| :: data[i].first == data[i].second
  {
    if LatLngsAsWritten(data) == LatLngsOf(data, DefaultLat, DefaultLng) {
      forall i | 0 <= i < |data| ensures data[i].first == data[i].second {
        assert LatLngsAsWritten(data)[i] == LatLngsOf(data, DefaultLat, DefaultLng)[i];
      }
    }
  }

  class HexbinLayer {
    var lng: Pair -> real
    var lat: Pair -> real
    var value: Bin -> Option<real>
    var valueFloor: Option<real>
    var valueCeil: Option<real>
    var colorScale: Scale<Color>
    var data: seq<Pair>
    /** The positions of the data, undefined until the first `data(...)` call. */
    var latlngs: Option<seq<LatLng>>

    /** Whether `_map` is set. */
    var attached: bool
    /** Whether `_container`, the layer's svg element, is set. */
    var hasContainer: bool

    /** On a map exactly when it has its container. */
    ghost predicate Valid()
      reads this
    {
      attached == hasContainer
    }

    /** `initialize(options)`: no data, a linear colour scale over the colour range. */
    constructor(options: HexbinOptions)
      ensures Valid()
      ensures forall d :: lng(d) == options.lng.GetOr(DefaultLng)(d) && lat(d) == options.lat.GetOr(DefaultLat)(d)
      ensures forall b :: value(b) == options.value.GetOr(BinLength)(b)
      ensures valueFloor == options.valueFloor && valueCeil == options.valueCeil
      ensures colorScale == Scale([0.0, 1.0], options.colorRange.GetOr(DefaultColorRange))
      ensures data == [] && latlngs.None? && !attached && !hasContainer
    {
      lng := options.lng.GetOr(DefaultLng);
      lat := options.lat.GetOr(DefaultLat);
      value := options.value.GetOr(BinLength);
      valueFloor := options.valueFloor;
      valueCeil := options.valueCeil;
      colorScale := Scale([0.0, 1.0], options.colorRange.GetOr(DefaultColorRange));
      data := [];
      latlngs := None;
      attached := false;
      hasContainer := false;
    }

    /**
     * `_getBounds(data)`: all zeros for missing or empty data, otherwise the
     * sentinel fold over the projected points.
     */
    static method GetBounds(data: Option<seq<Projected<Pair>>>) returns (b: Box)
      ensures data.None? || |data.value| < 1 ==> b == ZeroBox
      ensures data.Some? && 1 <= |data.value| ==> SentinelBounds(b, data.value, PointX, PointY)
    {
      b := GetBoundsBy(data, PointX, PointY);
    }

    /** `_createHexagons(g, data)`: sets the colour domain from the values of `bins`. */
    method CreateHexagons(bins: seq<Bin>)
      modifies this`colorScale
      ensures colorScale == Recolored(old(colorScale), bins, value, valueFloor, valueCeil)
      ensures |colorScale.domain| == |colorScale.range| && colorScale.range == old(colorScale).range
    {
      var extent := ValueExtent(Coords(bins, value));
      var lo, hi := extent.0, extent.1;
      if lo.None? {
        lo := Some(0.0);
      }
      if hi.None? {
        hi := Some(0.0);
      }
      if valueFloor.Some? {
        lo := valueFloor;
      }
      if valueCeil.Some? {
        hi := valueCeil;
      }
      var domain := LinearlySpace(lo.value, hi.value, |colorScale.range|);
      colorScale := colorScale.(domain := domain);
    }

    /**
     * `_redraw()`: nothing off the map; on it, the box the container is sized
     * to (the bounds of the projected data) and a recoloured scale.
     */
    method Redraw(bins: seq<Bin>, toLayer: LatLng -> Point) returns (box: Option<Box>)
      requires Valid()
      modifies this`colorScale
      ensures !attached ==> box.None? && colorScale == old(colorScale)
      ensures attached ==> box.Some? && colorScale == Recolored(old(colorScale), bins, value, valueFloor, valueCeil)
      ensures attached && data == [] ==> box == Some(ZeroBox)
      ensures attached && data != [] ==> SentinelBounds(box.value, ProjectAll(data, lng, lat, toLayer), PointX, PointY)
    {
      if !attached {
        return None;
      }
      var projected := ProjectAll(data, lng, lat, toLayer);
      var b := GetBounds(Some(projected));
      CreateHexagons(bins);
      box := Some(b);
    }

    /**
     * `onAdd(map)`, called by Leaflet on a layer that is not on a map: creates
     * the container and draws.
     */
    method OnAdd(bins: seq<Bin>, toLayer: LatLng -> Point) returns (box: Option<Box>)
      requires Valid() && !attached
      modifies this`attached, this`hasContainer, this`colorScale
      ensures Valid() && attached && hasContainer
      ensures box.Some? && colorScale == Recolored(old(colorScale), bins, value, valueFloor, valueCeil)
    {
      attached := true;
      // `_initContainer` answers a new svg element only when there is none yet.
      hasContainer := !hasContainer;
      box := Redraw(bins, toLayer);
    }

    /** `onRemove(map)`: drops the container and the map, and keeps the data for a later `onAdd`. */
    method OnRemove()
      modifies this`attached, this`hasContainer
      ensures Valid() && !attached && !hasContainer
    {
      hasContainer := false;
      attached := false;
    }

    /**
     * `data(data)`: stores the data (none becomes empty), records their
     * positions through the configured accessors, and redraws.
     */
    method SetData(d: Option<seq<Pair>>, bins: seq<Bin>, toLayer: LatLng -> Point) returns (self: HexbinLayer)
      requires Valid()
      modifies this`data, this`latlngs, this`colorScale
      ensures Valid() && self == this
      ensures data == d.GetOr([])
      ensures latlngs.Some? && |latlngs.value| == |data|
      ensures forall i | 0 <= i < |data| :: latlngs.value[i] == LatLng(lat(data[i]), lng(data[i]))
      ensures colorScale == if attached then Recolored(old(colorScale), bins, value, valueFloor, valueCeil) else old(colorScale)
    {
      data := d.GetOr([]);
      latlngs := Some(LatLngsOf(data, lat, lng));
      var _ := Redraw(bins, toLayer);
      self := this;
    }

    /** `colorScale(v)`: stores the scale and redraws, which respaces its domain on a map. */
    method SetColorScale(v: Scale<Color>, bins: seq<Bin>, toLayer: LatLng -> Point) returns (self: HexbinLayer)
      requires Valid()
      modifies this`colorScale
      ensures Valid() && self == this
      ensures colorScale == if attached then Recolored(v, bins, value, valueFloor, valueCeil) else v
    {
      colorScale := v;
      var _ := Redraw(bins, toLayer);
      self := this;
    }

    /** `value(v)`: stores the value accessor and redraws. */
    method SetValue(v: Bin -> Option<real>, bins: seq<Bin>, toLayer: LatLng -> Point) returns (self: HexbinLayer)
      requires Valid()
      modifies this`value, this`colorScale
      ensures Valid() && self == this
      ensures forall b :: value(b) == v(b)
      ensures colorScale == if attached then Recolored(old(colorScale), bins, v, valueFloor, valueCeil) else old(colorScale)
    {
      value := v;
      var _ := Redraw(bins, toLayer);
      self := this;
    }
  }

  /**
   * A layer taken off the map and put back draws again from the data it kept:
   * the second draw gives the colour scale one domain stop per colour.
   */
  method RemoveThenAdd(options: HexbinOptions, d: seq<Pair>, bins: seq<Bin>, toLayer: LatLng -> Point)
    returns (kept: seq<Pair>, domain: seq<real>)
    ensures kept == d
    ensures |domain| == |options.colorRange.GetOr(DefaultColorRange)|
  {
    var layer := new HexbinLayer(options);
    var _ := layer.OnAdd(bins, toLayer);
    var _ := layer.SetData(Some(d), bins, toLayer);
    layer.OnRemove();
    var _ := layer.OnAdd(bins, toLayer);
    kept := layer.data;
    domain := layer.colorScale.domain;
  }
}
