/**
 * The built bundle `dist/leaflet-d3.js` (version 2.0.0): `L.HexbinLayer`, which
 * bins projected data into hexagons and colours them by a value, and
 * `L.PingLayer`, which draws short-lived circles. The bins d3-hexbin makes and
 * the map's `latLngToLayerPoint` are inputs of the operations that use them.
 */
module LeafletD3 {
  import opened Wrappers
  import opened Geo
  import opened Scales
  import opened HexbinMath
  import opened PingQueue

  /** Hexbin options `L.setOptions` merges over the defaults; `None` keeps the default. */
  datatype HexbinOptions = HexbinOptions(
    lng: Option<Pair -> real>,
    lat: Option<Pair -> real>,
    value: Option<Bin -> Option<real>>,
    valueFloor: Option<real>,
    valueCeil: Option<real>,
    colorRange: Option<seq<Color>>)

  const DefaultColorRange: seq<Color> := ["#f7fbff", "#08306b"]

  /** The default `value`, `d.length`: the number of points in the bin. */
  function BinLength(b: Bin): Option<real>
  {
    Some(b.size as real)
  }

  /**
   * The ends `_createHexagons` gives the colour domain: the extent of the bin
   * values (0 for a missing end), pulled apart to `[hi - 1, hi]` when both ends
   * agree, then replaced by `valueFloor` and `valueCeil` where those are set.
   * Without an override, the low end is the least value (one below the common
   * value when all are equal, -1 when none is present) and the high end the
   * greatest value (0 when none is present).
   */
  function DomainEnds(values: seq<Option<real>>, valueFloor: Option<real>, valueCeil: Option<real>): (ends: (real, real))
    ensures valueFloor.Some? ==> ends.0 == valueFloor.value
    ensures valueCeil.Some? ==> ends.1 == valueCeil.value
    ensures valueFloor.None? ==> forall i | 0 <= i < |values| && values[i].Some? :: ends.0 <= values[i].value
    ensures valueCeil.None? ==> forall i | 0 <= i < |values| && values[i].Some? :: values[i].value <= ends.1
    ensures valueFloor.None? && AnyPresent(values) && !AllEqual(values) ==> Some(ends.0) in values
    ensures valueFloor.None? && AnyPresent(values) && AllEqual(values) ==> Some(ends.0 + 1.0) in values
    ensures valueFloor.None? && !AnyPresent(values) ==> ends.0 == -1.0
    ensures valueCeil.None? && AnyPresent(values) ==> Some(ends.1) in values
    ensures valueCeil.None? && !AnyPresent(values) ==> ends.1 == 0.0
    ensures valueFloor.None? && valueCeil.None? && AllEqual(values) ==> ends.0 == ends.1 - 1.0
    ensures valueFloor.None? && valueCeil.None? ==> ends.0 < ends.1
  {
    var e := ZeroedExtent(values);
    var lo := if e.0 == e.1 then e.1 - 1.0 else e.0;
    (valueFloor.GetOr(lo), valueCeil.GetOr(e.1))
  }

  /** The colour scale after `_createHexagons` has seen `bins`. */
  function Recolored(scale: Scale<Color>, bins: seq<Bin>, value: Bin -> Option<real>,
                     valueFloor: Option<real>, valueCeil: Option<real>): Scale<Color>
  {
    var ends := DomainEnds(Coords(bins, value), valueFloor, valueCeil);
    Respaced(scale, ends.0, ends.1)
  }

  /**
   * Without a floor or a ceiling, the recoloured scale has one stop per colour,
   * strictly spread from below every bin value to above every bin value.
   */
  lemma {:induction false} RecoloredCoversValues(scale: Scale<Color>, bins: seq<Bin>, value: Bin -> Option<real>)
    requires 2 <= |scale.range|
    ensures var d := Recolored(scale, bins, value, None, None).domain;
            && |d| == |scale.range|
            && d[0] < d[|d| - 1]
            && (forall i, j | 0 <= i <= j < |d| :: d[i] <= d[j])
            && forall b | b in bins && value(b).Some? :: d[0] <= value(b).value <= d[|d| - 1]
  {
    var vs := Coords(bins, value);
    var ends := DomainEnds(vs, None, None);
    RespacedSpans(scale, ends.0, ends.1);
    forall b | b in bins && value(b).Some? ensures ends.0 <= value(b).value <= ends.1 {
      var i :| 0 <= i < |bins| && bins[i] == b;
      assert vs[i] == value(b);
    }
  }

  class HexbinLayer {
    var lng: Pair -> real
    var lat: Pair -> real
    var value: Bin -> Option<real>
    var valueFloor: Option<real>
    var valueCeil: Option<real>
    var colorScale: Scale<Color>
    var data: seq<Pair>

    /** Whether `_map` is set. */
    var attached: bool
    /** Whether `_container`, the layer's svg element, is set. */
    var hasContainer: bool

    /** A layer on a map has its svg container. */
    ghost predicate Valid()
      reads this
    {
      attached ==> hasContainer
    }

    /** `initialize(options)`: no data, a linear colour scale over the colour range. */
    constructor(options: HexbinOptions)
      ensures Valid()
      ensures forall d :: lng(d) == options.lng.GetOr(DefaultLng)(d) && lat(d) == options.lat.GetOr(DefaultLat)(d)
      ensures forall b :: value(b) == options.value.GetOr(BinLength)(b)
      ensures valueFloor == options.valueFloor && valueCeil == options.valueCeil
      ensures colorScale == Scale([0.0, 1.0], options.colorRange.GetOr(DefaultColorRange))
      ensures data == [] && !attached && !hasContainer
    {
      lng := options.lng.GetOr(DefaultLng);
      lat := options.lat.GetOr(DefaultLat);
      value := options.value.GetOr(BinLength);
      valueFloor := options.valueFloor;
      valueCeil := options.valueCeil;
      colorScale := Scale([0.0, 1.0], options.colorRange.GetOr(DefaultColorRange));
      data := [];
      attached := false;
      hasContainer := false;
    }

    /**
     * `_getBounds(data)`: all zeros for missing or empty data, otherwise the
     * sentinel fold over the projected points.
     */
    static method GetBounds(data: Option<seq<Projected<Pair>>>) returns (b: Box)
      ensures data.None? || |data.value| < 1 ==> b == ZeroBox
      ensures data.Some? && 1 <= |data.value| ==> SentinelBounds(b, data.value, PointX, PointY)
    {
      b := GetBoundsBy(data, PointX, PointY);
    }

    /** `_createHexagons(g, data)`: sets the colour domain from the values of `bins`. */
    method CreateHexagons(bins: seq<Bin>)
      modifies this`colorScale
      ensures colorScale == Recolored(old(colorScale), bins, value, valueFloor, valueCeil)
    {
      var extent := ValueExtent(Coords(bins, value));
      var lo, hi := extent.0, extent.1;
      if lo.None? {
        lo := Some(0.0);
      }
      if hi.None? {
        hi := Some(0.0);
      }
      if lo == hi {
        lo := Some(hi.value - 1.0);
      }
      if valueFloor.Some? {
        lo := valueFloor;
      }
      if valueCeil.Some? {
        hi := valueCeil;
      }
      var domain := LinearlySpace(lo.value, hi.value, |colorScale.range|);
      colorScale := colorScale.(domain := domain);
    }

    /**
     * `_redraw()`: nothing off the map; on it, the box the container is sized
     * to (the bounds of the projected data) and a recoloured scale.
     */
    method Redraw(bins: seq<Bin>, toLayer: LatLng -> Point) returns (box: Option<Box>)
      requires Valid()
      modifies this`colorScale
      ensures !attached ==> box.None? && colorScale == old(colorScale)
      ensures attached ==> box.Some? && colorScale == Recolored(old(colorScale), bins, value, valueFloor, valueCeil)
      ensures attached && data == [] ==> box == Some(ZeroBox)
      ensures attached && data != [] ==> SentinelBounds(box.value, ProjectAll(data, lng, lat, toLayer), PointX, PointY)
    {
      if !attached {
        return None;
      }
      var projected := ProjectAll(data, lng, lat, toLayer);
      var b := GetBounds(Some(projected));
      CreateHexagons(bins);
      box := Some(b);
    }

    /** `onAdd(map)`: creates the container if there is none, then draws. */
    method OnAdd(bins: seq<Bin>, toLayer: LatLng -> Point) returns (box: Option<Box>)
      requires Valid()
      modifies this`attached, this`hasContainer, this`colorScale
      ensures Valid() && attached && hasContainer
      ensures box.Some? && colorScale == Recolored(old(colorScale), bins, value, valueFloor, valueCeil)
    {
      attached := true;
      if !hasContainer {
        hasContainer := true;
      }
      box := Redraw(bins, toLayer);
    }

    /** `onRemove(map)`: drops the container and the map, and keeps the data for a later `onAdd`. */
    method OnRemove()
      modifies this`attached, this`hasContainer
      ensures Valid() && !attached && !hasContainer
    {
      hasContainer := false;
      attached := false;
    }

    /** `data(data)`: stores the data (none becomes empty) and redraws. */
    method SetData(d: Option<seq<Pair>>, bins: seq<Bin>, toLayer: LatLng -> Point) returns (self: HexbinLayer)
      requires Valid()
      modifies this`data, this`colorScale
      ensures Valid() && self == this
      ensures data == d.GetOr([])
      ensures colorScale == if attached then Recolored(old(colorScale), bins, value, valueFloor, valueCeil) else old(colorScale)
    {
      data := d.GetOr([]);
      var _ := Redraw(bins, toLayer);
      self := this;
    }

    /** `colorScale(v)`: stores the scale and redraws, which respaces its domain on a map. */
    method SetColorScale(v: Scale<Color>, bins: seq<Bin>, toLayer: LatLng -> Point) returns (self: HexbinLayer)
      requires Valid()
      modifies this`colorScale
      ensures Valid() && self == this
      ensures colorScale == if attached then Recolored(v, bins, value, valueFloor, valueCeil) else v
    {
      colorScale := v;
      var _ := Redraw(bins, toLayer);
      self := this;
    }

    /** `value(v)`: stores the value accessor and redraws. */
    method SetValue(v: Bin -> Option<real>, bins: seq<Bin>, toLayer: LatLng -> Point) returns (self: HexbinLayer)
      requires Valid()
      modifies this`value, this`colorScale
      ensures Valid() && self == this
      ensures forall b :: value(b) == v(b)
      ensures colorScale == if attached then Recolored(old(colorScale), bins, v, valueFloor, valueCeil) else old(colorScale)
    {
      value := v;
      var _ := Redraw(bins, toLayer);
      self := this;
    }

    /** `getLatLngs()`: each datum's position, read through the configured accessors. */
    function GetLatLngs(): (r: seq<LatLng>)
      reads this
      ensures |r| == |data|
      ensures forall i | 0 <= i < |data| :: r[i] == LatLng(lat(data[i]), lng(data[i]))
    {
      LatLngsOf(data, lat, lng)
    }
  }

  /** Ping options `L.setOptions` merges over the defaults; `None` keeps the default. */
  datatype PingOptions = PingOptions(
    lng: Option<Pair -> real>,
    lat: Option<Pair -> real>,
    fps: Option<real>,
    duration: Option<real>)

  const DefaultFps: real := 32.0
  const DefaultDuration: real := 800.0

  /** The fixed ranges of the bundled ping scales: radius 3 to 15, opacity 1 to 0. */
  const RadiusRange: seq<real> := [3.0, 15.0]
  const OpacityRange: seq<real> := [1.0, 0.0]

  class PingLayer {
    var lng: Pair -> real
    var lat: Pair -> real
    var fps: real
    var duration: real
    var radiusScale: Scale<real>
    var opacityScale: Scale<real>

    /** Whether `_map` is set. */
    var attached: bool
    /** Whether `_container` is set. */
    var hasContainer: bool
    var running: bool
    var lastUpdate: int
    /** The queue; its entries keep no datum, only the position. */
    var data: Option<seq<Circle<()>>>

    /** The circles taken off the map so far. */
    ghost var removed: set<Handle>

    /** The number of `d3.timer` loops started so far. */
    ghost var timers: nat

    /** On a map exactly when it has its container; off the map, no pings. */
    ghost predicate Valid()
      reads this
    {
      && attached == hasContainer
      && (!attached ==> QueueOf(data) == [])
    }

    /**
     * `initialize(options)`. `_lastUpdate` is a prototype property set when the
     * script was loaded, at `loadTime`.
     */
    constructor(options: PingOptions, loadTime: int)
      ensures Valid()
      ensures forall d :: lng(d) == options.lng.GetOr(DefaultLng)(d) && lat(d) == options.lat.GetOr(DefaultLat)(d)
      ensures fps == options.fps.GetOr(DefaultFps) && duration == options.duration.GetOr(DefaultDuration)
      ensures radiusScale == Scale([0.0, duration], RadiusRange)
      ensures opacityScale == Scale([0.0, duration], OpacityRange)
      ensures !attached && !hasContainer && !running && lastUpdate == loadTime && data.None? && removed == {} && timers == 0
    {
      lng := options.lng.GetOr(DefaultLng);
      lat := options.lat.GetOr(DefaultLat);
      fps := options.fps.GetOr(DefaultFps);
      duration := options.duration.GetOr(DefaultDuration);
      attached := false;
      hasContainer := false;
      running := false;
      lastUpdate := loadTime;
      data := None;
      removed := {};
      timers := 0;
      new;
      radiusScale := Scale([0.0, duration], RadiusRange);
      opacityScale := Scale([0.0, duration], OpacityRange);
    }

    /**
     * `_update(immediate)`: redraws the due live pings, cuts the queue after the
     * last expired one, and answers whether the simulation has stopped.
     */
    method Update(immediate: bool, now: int) returns (stopped: bool)
      requires Valid()
      modifies this`data, this`running, this`lastUpdate, this`removed
      ensures Valid()
      ensures data == Some(AfterUpdate(QueueOf(old(data)), now, duration, fps, immediate))
      ensures removed == old(removed) + ExpiredHandles(QueueOf(old(data)), now, duration)
      ensures running <==> 0 < |data.value|
      ensures stopped == !running
      ensures lastUpdate == if running then now else old(lastUpdate)
      ensures Chronological(QueueOf(old(data))) ==>
                && Chronological(data.value)
                && data.value == VisitAll(QueueOf(old(data)), now, duration, fps, immediate)[ExpiredRun(QueueOf(old(data)), now, duration)..]
    {
      var s := QueueOf(data);
      var t := UpdatePass(s, now, duration, fps, immediate);
      data := Some(t);
      removed := removed + ExpiredHandles(s, now, duration);
      running := |t| > 0;
      if running {
        lastUpdate := now;
      }
      stopped := !running;
    }

    /**
     * `onAdd(map)`, called by Leaflet on a layer that is not on a map: creates
     * the container and runs an immediate update, which finds the queue empty.
     */
    method OnAdd(now: int)
      requires Valid() && !attached
      modifies this`attached, this`hasContainer, this`running, this`data, this`lastUpdate, this`removed
      ensures Valid() && attached && hasContainer
      ensures data == Some([]) && !running && lastUpdate == old(lastUpdate) && removed == old(removed)
    {
      attached := true;
      running := false;
      // `_initContainer` answers a new svg element only when there is none yet.
      hasContainer := !hasContainer;
      var _ := Update(true, now);
    }

    /** `onRemove(map)`: drops the container, the map and the queue. */
    method OnRemove()
      modifies this`attached, this`hasContainer, this`data
      ensures Valid() && !attached && !hasContainer && data.None?
    {
      hasContainer := false;
      attached := false;
      data := None;
    }

    /** `_move()`, on a map move: an immediate update of every live ping. */
    method Move(now: int) returns (stopped: bool)
      requires Valid() && attached
      modifies this`data, this`running, this`lastUpdate, this`removed
      ensures Valid()
      ensures data == Some(AfterUpdate(QueueOf(old(data)), now, duration, fps, true))
      ensures removed == old(removed) + ExpiredHandles(QueueOf(old(data)), now, duration)
      ensures running <==> 0 < |data.value|
      ensures stopped == !running
      ensures lastUpdate == if running then now else old(lastUpdate)
      ensures Chronological(QueueOf(old(data))) ==>
                && Chronological(data.value)
                && data.value == VisitAll(QueueOf(old(data)), now, duration, fps, true)[ExpiredRun(QueueOf(old(data)), now, duration)..]
    {
      stopped := Update(true, now);
    }

    /**
     * `_add(data)`: queues a circle at `[lat, lng]` stamped `now`. Off the map,
     * `_getCircleCoords` reads the null `_map` and throws, after the queue has
     * been lazily created.
     */
    method Add(datum: Pair, c: Handle, now: int) returns (r: Outcome)
      requires Valid()
      modifies this`data
      ensures Valid()
      ensures !attached ==> r == Fail(TypeError) && data == Some([])
      ensures attached ==> r == Pass && data == Some(QueueOf(old(data)) + [NewCircle((), LatLng(lat(datum), lng(datum)), now, c)])
    {
      if data.None? {
        data := Some([]);
      }
      if !attached {
        return Fail(TypeError);
      }
      var geo := LatLng(lat(datum), lng(datum));
      data := Some(data.value + [NewCircle((), geo, now, c)]);
      r := Pass;
    }

    /** `_expire()`: removes the expired head of the queue. */
    method Expire(now: int)
      requires Valid() && data.Some?
      modifies this`data, this`removed
      ensures Valid()
      ensures data == Some(AfterExpire(old(data).value, now, duration))
      ensures removed == old(removed) + ExpiredHandles(old(data).value[..ExpiredRun(old(data).value, now, duration)], now, duration)
    {
      var s := data.value;
      var maxIndex := ExpireLoop(s, now, duration);
      removed := removed + ExpiredHandles(s[..maxIndex + 1], now, duration);
      if maxIndex > -1 {
        data := Some(s[maxIndex + 1..]);
      }
    }

    /**
     * `ping(data)`: queues the datum, expires the old head of the queue, and
     * starts the timer when it is idle and the queue is not empty.
     */
    method Ping(datum: Pair, c: Handle, now: int) returns (r: Outcome)
      requires Valid()
      modifies this`data, this`running, this`lastUpdate, this`removed, this`timers
      ensures Valid()
      ensures !attached ==> && r == Fail(TypeError) && data == Some([]) && running == old(running)
                            && lastUpdate == old(lastUpdate) && removed == old(removed) && timers == old(timers)
      ensures attached ==>
                var s := QueueOf(old(data)) + [NewCircle((), LatLng(lat(datum), lng(datum)), now, c)];
                && r == Pass
                && data == Some(AfterExpire(s, now, duration))
                && removed == old(removed) + ExpiredHandles(s[..ExpiredRun(s, now, duration)], now, duration)
                && (running <==> old(running) || 0 < |data.value|)
                && lastUpdate == (if !old(running) && 0 < |data.value| then now else old(lastUpdate))
                && timers == old(timers) + (if !old(running) && 0 < |data.value| then 1 else 0)
      ensures attached && 0.0 <= duration ==> running && 0 < |data.value| && data.value[|data.value| - 1].ts == now
      ensures attached && Chronological(QueueOf(old(data))) && (forall q | q in QueueOf(old(data)) :: q.ts <= now) ==>
                Chronological(data.value)
    {
      ghost var s0 := QueueOf(data);
      r := Add(datum, c, now);
      if r.Fail? {
        return;
      }
      PingPass(s0, NewCircle((), LatLng(lat(datum), lng(datum)), now, c), now, duration);
      Expire(now);
      if !running && |data.value| > 0 {
        running := true;
        lastUpdate := now;
        timers := timers + 1;
      }
    }

    /** `getCount()`: the number of queued pings; it throws while there is no queue. */
    function GetCount(): (r: Result<nat>)
      reads this
      ensures r.Err? <==> data.None?
      ensures r.Ok? ==> r.value == |data.value|
    {
      if data.None? then Err(TypeError) else Ok(|data.value|)
    }

    /** `radiusScale(v)`. */
    method SetRadiusScale(v: Scale<real>) returns (self: PingLayer)
      modifies this`radiusScale
      ensures radiusScale == v && self == this
    {
      radiusScale := v;
      self := this;
    }

    /** `opacityScale(v)`. */
    method SetOpacityScale(v: Scale<real>) returns (self: PingLayer)
      modifies this`opacityScale
      ensures opacityScale == v && self == this
    {
      opacityScale := v;
      self := this;
    }
  }

  /**
   * On a map, `getCount()` answers from the first `onAdd` on, and right after a
   * ping with a non-negative duration it counts at least that ping.
   */
  method AddThenPing(options: PingOptions, loadTime: int, now: int, datum: Pair, c: Handle) returns (before: Result<nat>, after: Result<nat>)
    requires 0.0 <= options.duration.GetOr(DefaultDuration)
    ensures before == Ok(0)
    ensures after.Ok? && 1 <= after.value
  {
    var layer := new PingLayer(options, loadTime);
    layer.OnAdd(now);
    before := layer.GetCount();
    var _ := layer.Ping(datum, c, now);
    after := layer.GetCount();
  }
}
