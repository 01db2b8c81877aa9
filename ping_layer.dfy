/**
 * `L.PingLayer` of the source tree (`src/js/ping/PingLayer.js`): an SVG layer
 * that draws a circle for every ping and ages it off after `duration`
 * milliseconds. The queue of live pings and its two passes are specified in
 * `PingQueue`; this class keeps the layer's own state and performs the passes.
 */
module PingLayer {
  import opened Wrappers
  import opened Geo
  import opened Scales
  import opened PingQueue

  /** The options `L.setOptions` merges over the defaults; `None` keeps the default. */
  datatype PingOptions = PingOptions(
    duration: Option<real>,
    fps: Option<real>,
    opacityRange: Option<seq<real>>,
    radiusRange: Option<seq<real>>)

  const DefaultDuration: real := 800.0
  const DefaultFps: real := 32.0
  const DefaultOpacityRange: seq<real> := [1.0, 0.0]
  const DefaultRadiusRange: seq<real> := [3.0, 15.0]

  class PingLayer {
    var duration: real
    var fps: real
    var opacityRange: seq<real>
    var radiusRange: seq<real>

    // `_fn`
    var lng: Pair -> real
    var lat: Pair -> real
    var radiusScaleFactor: Pair -> real

    // `_scale`
    var radiusScale: Scale<real>
    var opacityScale: Scale<real>

    /** Whether `_map` is set: between `onAdd` and `onRemove`. */
    var attached: bool
    var running: bool
    var lastUpdate: int
    var data: Option<seq<Circle<Pair>>>

    /** The circles taken off the map so far. */
    ghost var removed: set<Handle>

    /** The number of `d3.timer` loops started so far. */
    ghost var timers: nat

    /** A layer that is not on a map holds no pings. */
    ghost predicate Valid()
      reads this
    {
      !attached ==> QueueOf(data) == []
    }

    /** `initialize(options)`, at time `now`. */
    constructor(options: PingOptions, now: int)
      ensures Valid()
      ensures duration == options.duration.GetOr(DefaultDuration)
      ensures fps == options.fps.GetOr(DefaultFps)
      ensures opacityRange == options.opacityRange.GetOr(DefaultOpacityRange)
      ensures radiusRange == options.radiusRange.GetOr(DefaultRadiusRange)
      ensures forall d :: lng(d) == d.first && lat(d) == d.second && radiusScaleFactor(d) == 1.0
      ensures radiusScale == Scale([0.0, duration], radiusRange)
      ensures opacityScale == Scale([0.0, duration], opacityRange)
      ensures !attached && !running && lastUpdate == now && data.None? && removed == {} && timers == 0
    {
      duration := options.duration.GetOr(DefaultDuration);
      fps := options.fps.GetOr(DefaultFps);
      opacityRange := options.opacityRange.GetOr(DefaultOpacityRange);
      radiusRange := options.radiusRange.GetOr(DefaultRadiusRange);
      lng := DefaultLng;
      lat := DefaultLat;
      radiusScaleFactor := (d: Pair) => 1.0;
      attached := false;
      running := false;
      lastUpdate := now;
      data := None;
      removed := {};
      timers := 0;
      new;
      radiusScale := Scale([0.0, duration], radiusRange);
      opacityScale := Scale([0.0, duration], opacityRange);
    }

    /** `onAdd(map)`: the layer is on the map and its simulation is idle. */
    method OnAdd()
      requires Valid()
      modifies this`attached, this`running
      ensures Valid()
      ensures attached && !running
    {
      attached := true;
      running := false;
    }

    /** `onRemove(map)`: forgets the map and the queue; `_running` is left as it was. */
    method OnRemove()
      modifies this`attached, this`data
      ensures Valid()
      ensures !attached && data.None?
    {
      attached := false;
      data := None;
    }

    /**
     * `_addPing(data)`: queues the datum at `[lat, lng]` stamped `now`, drawn as
     * circle `c`. Off the map, `_getCircleCoords` reads the null `_map` and
     * throws, after the queue has been lazily created.
     */
    method AddPing(datum: Pair, c: Handle, now: int) returns (r: Outcome)
      requires Valid()
      modifies this`data
      ensures Valid()
      ensures !attached ==> r == Fail(TypeError) && data == Some([])
      ensures attached ==> r == Pass && data == Some(QueueOf(old(data)) + [NewCircle(datum, LatLng(lat(datum), lng(datum)), now, c)])
    {
      if data.None? {
        data := Some([]);
      }
      if !attached {
        return Fail(TypeError);
      }
      var geo := LatLng(lat(datum), lng(datum));
      data := Some(data.value + [NewCircle(datum, geo, now, c)]);
      r := Pass;
    }

    /** `_expirePings()`: removes the expired head of the queue. */
    method ExpirePings(now: int)
      requires Valid() && data.Some?
      modifies this`data, this`removed
      ensures Valid()
      ensures data == Some(AfterExpire(old(data).value, now, duration))
      ensures removed == old(removed) + ExpiredHandles(old(data).value[..ExpiredRun(old(data).value, now, duration)], now, duration)
    {
      var s := data.value;
      var maxIndex := ExpireLoop(s, now, duration);
      removed := removed + ExpiredHandles(s[..maxIndex + 1], now, duration);
      if maxIndex > -1 {
        data := Some(s[maxIndex + 1..]);
      }
    }

    /**
     * `_updatePings(immediate)`, one tick of the timer (or, with `immediate`,
     * a map move): redraws the due live pings, cuts the queue after the last
     * expired one, and answers whether the simulation has stopped.
     */
    method UpdatePings(immediate: bool, now: int) returns (stopped: bool)
      requires Valid()
      modifies this`data, this`running, this`lastUpdate, this`removed
      ensures Valid()
      ensures data == Some(AfterUpdate(QueueOf(old(data)), now, duration, fps, immediate))
      ensures removed == old(removed) + ExpiredHandles(QueueOf(old(data)), now, duration)
      ensures running <==> 0 < |data.value|
      ensures stopped == !running
      ensures lastUpdate == if running then now else old(lastUpdate)
      ensures Chronological(QueueOf(old(data))) ==>
                && Chronological(data.value)
                && data.value == VisitAll(QueueOf(old(data)), now, duration, fps, immediate)[ExpiredRun(QueueOf(old(data)), now, duration)..]
    {
      var s := QueueOf(data);
      var t := UpdatePass(s, now, duration, fps, immediate);
      data := Some(t);
      removed := removed + ExpiredHandles(s, now, duration);
      running := |t| > 0;
      if running {
        lastUpdate := now;
      }
      stopped := !running;
    }

    /**
     * `ping(data)`: queues the datum, expires the old head of the queue, and
     * starts the timer when it is idle and the queue is not empty.
     */
    method Ping(datum: Pair, c: Handle, now: int) returns (r: Outcome)
      requires Valid()
      modifies this`data, this`running, this`lastUpdate, this`removed, this`timers
      ensures Valid()
      ensures !attached ==> && r == Fail(TypeError) && data == Some([]) && running == old(running)
                            && lastUpdate == old(lastUpdate) && removed == old(removed) && timers == old(timers)
      ensures attached ==>
                var s := QueueOf(old(data)) + [NewCircle(datum, LatLng(lat(datum), lng(datum)), now, c)];
                && r == Pass
                && data == Some(AfterExpire(s, now, duration))
                && removed == old(removed) + ExpiredHandles(s[..ExpiredRun(s, now, duration)], now, duration)
                && (running <==> old(running) || 0 < |data.value|)
                && lastUpdate == (if !old(running) && 0 < |data.value| then now else old(lastUpdate))
                && timers == old(timers) + (if !old(running) && 0 < |data.value| then 1 else 0)
      ensures attached && 0.0 <= duration ==> running && 0 < |data.value| && data.value[|data.value| - 1].ts == now
      ensures attached && Chronological(QueueOf(old(data))) && (forall q | q in QueueOf(old(data)) :: q.ts <= now) ==>
                Chronological(data.value)
    {
      ghost var s0 := QueueOf(data);
      r := AddPing(datum, c, now);
      if r.Fail? {
        return;
      }
      PingPass(s0, NewCircle(datum, LatLng(lat(datum), lng(datum)), now, c), now, duration);
      ExpirePings(now);
      if !running && |data.value| > 0 {
        running := true;
        lastUpdate := now;
        timers := timers + 1;
      }
    }

    /** `duration(v)`; the scales keep the domain they were given at construction. */
    method SetDuration(v: real) returns (self: PingLayer)
      modifies this`duration
      ensures duration == v && self == this
    {
      duration := v;
      self := this;
    }

    /** `fps(v)`. */
    method SetFps(v: real) returns (self: PingLayer)
      modifies this`fps
      ensures fps == v && self == this
    {
      fps := v;
      self := this;
    }

    /** `lng(v)`. */
    method SetLng(v: Pair -> real) returns (self: PingLayer)
      modifies this`lng
      ensures (forall d :: lng(d) == v(d)) && self == this
    {
      lng := v;
      self := this;
    }

    /** `lat(v)`. */
    method SetLat(v: Pair -> real) returns (self: PingLayer)
      modifies this`lat
      ensures (forall d :: lat(d) == v(d)) && self == this
    {
      lat := v;
      self := this;
    }

    /** `radiusScaleFactor(v)`. */
    method SetRadiusScaleFactor(v: Pair -> real) returns (self: PingLayer)
      modifies this`radiusScaleFactor
      ensures (forall d :: radiusScaleFactor(d) == v(d)) && self == this
    {
      radiusScaleFactor := v;
      self := this;
    }

    /** `radiusScale(v)`. */
    method SetRadiusScale(v: Scale<real>) returns (self: PingLayer)
      modifies this`radiusScale
      ensures radiusScale == v && self == this
    {
      radiusScale := v;
      self := this;
    }

    /** `opacityScale(v)`. */
    method SetOpacityScale(v: Scale<real>) returns (self: PingLayer)
      modifies this`opacityScale
      ensures opacityScale == v && self == this
    {
      opacityScale := v;
      self := this;
    }

    /**
     * `radiusRange(v)` as written: the option is stored, then the scale is
     * called with no argument, which yields a number, and calling `.range` on
     * that number throws. The scale keeps its old range.
     */
    method SetRadiusRange(v: seq<real>) returns (r: Outcome)
      modifies this`radiusRange
      ensures radiusRange == v && r == Fail(TypeError)
      ensures radiusScale == old(radiusScale)
    {
      radiusRange := v;
      r := Fail(TypeError);
    }

    /** `radiusRange(v)` as intended: the option and the radius scale's range both become `v`. */
    method SetRadiusRangeIntended(v: seq<real>) returns (self: PingLayer)
      modifies this`radiusRange, this`radiusScale
      ensures radiusRange == v && radiusScale == old(radiusScale).(range := v) && self == this
    {
      radiusRange := v;
      radiusScale := radiusScale.(range := v);
      self := this;
    }

    /** `opacityRange(v)` as written: stores the option, then throws like `radiusRange`. */
    method SetOpacityRange(v: seq<real>) returns (r: Outcome)
      modifies this`opacityRange
      ensures opacityRange == v && r == Fail(TypeError)
      ensures opacityScale == old(opacityScale)
    {
      opacityRange := v;
      r := Fail(TypeError);
    }

    /** `opacityRange(v)` as intended: the option and the opacity scale's range both become `v`. */
    method SetOpacityRangeIntended(v: seq<real>) returns (self: PingLayer)
      modifies this`opacityRange, this`opacityScale
      ensures opacityRange == v && opacityScale == old(opacityScale).(range := v) && self == this
    {
      opacityRange := v;
      opacityScale := opacityScale.(range := v);
      self := this;
    }
  }
}
