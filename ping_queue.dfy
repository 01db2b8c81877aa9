/**
 * The queue of live pings that both ping layers keep in `_data`: the record of
 * one ping, the age and redraw rules, the specification of the two passes over
 * the queue (the expiry pass of `ping` and the update pass of the timer tick),
 * and the loops that perform them.
 */
module PingQueue {
  import opened Wrappers
  import opened Geo

  /** The SVG circle a ping draws (`circle.c`), by identity. */
  type Handle = nat

  /**
   * `nts`, the time of a ping's next scheduled redraw. `Never` is the value
   * Infinity, which `Math.round(now + 1000/fps)` gives when `fps` is 0.
   */
  datatype Deadline = At(ms: int) | Never

  /** One entry of `_data`: `{data, geo, ts, nts, c}`. */
  datatype Circle<D> = Circle(datum: D, geo: LatLng, ts: int, nts: Deadline, c: Handle)

  /** `_data` with the lazy `if (null == this._data) this._data = []` applied. */
  function QueueOf<D>(data: Option<seq<Circle<D>>>): seq<Circle<D>>
  {
    data.GetOr([])
  }

  /** The entry `_addPing` pushes: stamped `now`, with `nts` 0. */
  function NewCircle<D>(datum: D, geo: LatLng, now: int, c: Handle): Circle<D>
  {
    Circle(datum, geo, now, At(0), c)
  }

  /** `duration < age`: a ping whose age equals the duration is still alive. */
  predicate Expired<D>(p: Circle<D>, now: int, duration: real)
  {
    duration < (now - p.ts) as real
  }

  /** Timestamps in queue order never decrease. */
  predicate Chronological<D>(s: seq<Circle<D>>)
  {
    forall i, j | 0 <= i < j < |s| :: s[i].ts <= s[j].ts
  }

  /** `Math.round`: the nearest integer, halves rounded up. */
  function RoundHalfUp(x: real): (r: int)
    ensures x - 0.5 < r as real <= x + 0.5
  {
    (x + 0.5).Floor
  }

  /** `Math.round(now + 1000 / fps)`, the next redraw time of a refreshed ping. */
  function NextTick(now: int, fps: real): (d: Deadline)
    ensures d.Never? <==> fps == 0.0
    ensures fps != 0.0 ==> now as real + 1000.0 / fps - 0.5 < d.ms as real <= now as real + 1000.0 / fps + 0.5
    ensures 0.0 < fps ==> now <= d.ms
    ensures fps < 0.0 ==> d.ms <= now
  {
    if fps == 0.0 then Never
    else
      var r := RoundHalfUp(now as real + 1000.0 / fps);
      assert 0.0 < fps ==> 0.0 < 1000.0 / fps;
      assert fps < 0.0 ==> 1000.0 / fps < 0.0;
      At(r)
  }

  /** `immediate || d.nts < nowTs`: whether a live ping is redrawn now. */
  predicate Due<D>(p: Circle<D>, now: int, immediate: bool)
  {
    immediate || (p.nts.At? && p.nts.ms < now)
  }

  /** What the update loop does to one entry. */
  function Visit<D>(p: Circle<D>, now: int, duration: real, fps: real, immediate: bool): (q: Circle<D>)
    ensures q.datum == p.datum && q.geo == p.geo && q.ts == p.ts && q.c == p.c
    ensures q.nts == (if !Expired(p, now, duration) && Due(p, now, immediate) then NextTick(now, fps) else p.nts)
  {
    if !Expired(p, now, duration) && Due(p, now, immediate) then p.(nts := NextTick(now, fps)) else p
  }

  /** The queue after the update loop has visited every entry in place. */
  function VisitAll<D>(s: seq<Circle<D>>, now: int, duration: real, fps: real, immediate: bool): (t: seq<Circle<D>>)
    ensures |t| == |s|
  {
    seq(|s|, i requires 0 <= i < |s| => Visit(s[i], now, duration, fps, immediate))
  }

  /**
   * `maxIndex + 1` of the update loop: one past the LAST expired entry, 0 when
   * none has expired. Everything from there on is alive.
   */
  function CutPoint<D>(s: seq<Circle<D>>, now: int, duration: real): (k: nat)
    ensures k <= |s|
    ensures 0 < k ==> Expired(s[k - 1], now, duration)
    ensures forall j | k <= j < |s| :: !Expired(s[j], now, duration)
  {
    if s == [] then 0
    else if Expired(s[|s| - 1], now, duration) then |s|
    else CutPoint(s[..|s| - 1], now, duration)
  }

  /**
   * `maxIndex + 1` of the expiry loop: the length of the longest run of
   * expired entries at the head of the queue.
   */
  function ExpiredRun<D>(s: seq<Circle<D>>, now: int, duration: real): (k: nat)
    ensures k <= |s|
    ensures forall j | 0 <= j < k :: Expired(s[j], now, duration)
    ensures k < |s| ==> !Expired(s[k], now, duration)
  {
    if s == [] || !Expired(s[0], now, duration) then 0
    else 1 + ExpiredRun(s[1..], now, duration)
  }

  /** The queue `_updatePings` leaves: the visited queue from the cut point on. */
  function AfterUpdate<D>(s: seq<Circle<D>>, now: int, duration: real, fps: real, immediate: bool): seq<Circle<D>>
  {
    VisitAll(s, now, duration, fps, immediate)[CutPoint(s, now, duration)..]
  }

  /** The queue `_expirePings` leaves: the queue after its expired head. */
  function AfterExpire<D>(s: seq<Circle<D>>, now: int, duration: real): seq<Circle<D>>
  {
    s[ExpiredRun(s, now, duration)..]
  }

  /** The circles a pass takes off the map: those of the expired entries of `s`. */
  ghost function ExpiredHandles<D>(s: seq<Circle<D>>, now: int, duration: real): set<Handle>
  {
    set i | 0 <= i < |s| && Expired(s[i], now, duration) :: s[i].c
  }

  /**
   * The loop of `_updatePings`: visits every entry, redrawing the live ones that
   * are due in place, and records the index of the last expired one.
   */
  method UpdateLoop<D>(s: seq<Circle<D>>, now: int, duration: real, fps: real, immediate: bool)
    returns (t: seq<Circle<D>>, maxIndex: int)
    ensures t == VisitAll(s, now, duration, fps, immediate)
    ensures maxIndex == CutPoint(s, now, duration) - 1
  {
    t := s;
    maxIndex := -1;
    var i := 0;
    while i < |t|
      invariant 0 <= i <= |t| == |s|
      invariant forall j | 0 <= j < i :: t[j] == Visit(s[j], now, duration, fps, immediate)
      invariant forall j | i <= j < |s| :: t[j] == s[j]
      invariant maxIndex == CutPoint(s[..i], now, duration) - 1
    {
      assert s[..i + 1][..i] == s[..i];
      var d := t[i];
      var age := now - d.ts;
      if duration < age as real {
        maxIndex := i;
      } else if immediate || (d.nts.At? && d.nts.ms < now) {
        t := t[i := d.(nts := NextTick(now, fps))];
      }
      i := i + 1;
    }
    assert s[..i] == s;
  }

  /**
   * The update pass on the queue: the loop, then the splice after the last
   * expired entry.
   */
  method UpdatePass<D>(s: seq<Circle<D>>, now: int, duration: real, fps: real, immediate: bool)
    returns (t: seq<Circle<D>>)
    ensures t == AfterUpdate(s, now, duration, fps, immediate)
    ensures s == [] ==> t == []
    ensures Chronological(s) ==>
              && Chronological(t)
              && t == VisitAll(s, now, duration, fps, immediate)[ExpiredRun(s, now, duration)..]
  {
    var maxIndex;
    t, maxIndex := UpdateLoop(s, now, duration, fps, immediate);
    if maxIndex > -1 {
      t := t[maxIndex + 1..];
    }
    if Chronological(s) {
      ChronologicalUpdate(s, now, duration, fps, immediate);
    }
  }

  /**
   * The loop of `_expirePings`: walks from the front while entries are expired
   * and stops at the first live one.
   */
  method ExpireLoop<D>(s: seq<Circle<D>>, now: int, duration: real) returns (maxIndex: int)
    ensures maxIndex == ExpiredRun(s, now, duration) - 1
  {
    maxIndex := -1;
    var i := 0;
    while i < |s|
      invariant 0 <= i <= |s|
      invariant maxIndex == i - 1
      invariant forall j | 0 <= j < i :: Expired(s[j], now, duration)
    {
      var age := now - s[i].ts;
      if duration < age as real {
        maxIndex := i;
      } else {
        break;
      }
      i := i + 1;
    }
    ExpiredRunIsLongestHead(s, now, duration, maxIndex + 1);
  }

  /** The head length that `ExpiredRun` computes is the only one with its two properties. */
  lemma ExpiredRunIsLongestHead<D>(s: seq<Circle<D>>, now: int, duration: real, k: nat)
    requires k <= |s|
    requires forall j | 0 <= j < k :: Expired(s[j], now, duration)
    requires k < |s| ==> !Expired(s[k], now, duration)
    ensures ExpiredRun(s, now, duration) == k
  {
  }

  /**
   * The update pass keeps exactly the entries after the cut point, each the
   * same ping as before (only `nts` may change), all of them alive.
   */
  lemma AfterUpdateIsLiveSuffix<D>(s: seq<Circle<D>>, now: int, duration: real, fps: real, immediate: bool)
    ensures var t := AfterUpdate(s, now, duration, fps, immediate);
            var k := CutPoint(s, now, duration);
            && |t| == |s| - k
            && forall j | 0 <= j < |t| ::
                 && t[j] == s[k + j].(nts := t[j].nts)
                 && !Expired(t[j], now, duration)
                 && t[j].nts == (if Due(s[k + j], now, immediate) then NextTick(now, fps) else s[k + j].nts)
  {
  }

  /**
   * With a positive frame rate, every ping the update pass keeps is scheduled
   * no earlier than `now`, or never (a deadline set while `fps` was 0).
   */
  lemma {:induction false} AfterUpdateScheduledFromNow<D>(s: seq<Circle<D>>, now: int, duration: real, fps: real, immediate: bool)
    requires 0.0 < fps
    ensures forall q | q in AfterUpdate(s, now, duration, fps, immediate) :: q.nts.Never? || now <= q.nts.ms
  {
    var t := AfterUpdate(s, now, duration, fps, immediate);
    var k := CutPoint(s, now, duration);
    forall q | q in t ensures q.nts.Never? || now <= q.nts.ms {
      var j :| 0 <= j < |t| && t[j] == q;
      assert t[j] == Visit(s[k + j], now, duration, fps, immediate);
      if !Due(s[k + j], now, immediate) {
        assert s[k + j].nts.Never? || now <= s[k + j].nts.ms;
      }
    }
  }

  /**
   * The update pass removes every expired entry, and — when the queue is in
   * time order — nothing else: the entries before the cut point are exactly
   * the expired ones, and the cut equals the expired head.
   */
  lemma {:induction false} ChronologicalUpdateRemovesExactlyExpired<D>(s: seq<Circle<D>>, now: int, duration: real)
    requires Chronological(s)
    ensures CutPoint(s, now, duration) == ExpiredRun(s, now, duration)
    ensures forall j | 0 <= j < |s| :: j < CutPoint(s, now, duration) <==> Expired(s[j], now, duration)
  {
    var k := CutPoint(s, now, duration);
    forall j | 0 <= j < k ensures Expired(s[j], now, duration) {
      assert s[j].ts <= s[k - 1].ts;
    }
    ExpiredRunIsLongestHead(s, now, duration, k);
  }

  /**
   * Out of time order, the update pass also drops live pings: here the entry
   * stamped 10 is alive at time 10 but lies before an expired one, so it is
   * taken out of the queue and its circle is never removed from the map.
   */
  lemma OutOfOrderUpdateDropsLivePing(datum: Pair, geo: LatLng)
    ensures var s := [NewCircle(datum, geo, 10, 1), NewCircle(datum, geo, 0, 2)];
            && CutPoint(s, 10, 5.0) == 2
            && !Expired(s[0], 10, 5.0)
            && 1 !in ExpiredHandles(s, 10, 5.0)
  {
    var s := [NewCircle(datum, geo, 10, 1), NewCircle(datum, geo, 0, 2)];
    assert s[..1] == [s[0]];
  }

  /** Appending a ping stamped no earlier than every queued one keeps time order. */
  lemma AppendKeepsChronological<D>(s: seq<Circle<D>>, p: Circle<D>)
    requires Chronological(s)
    requires forall q | q in s :: q.ts <= p.ts
    ensures Chronological(s + [p])
  {
    forall i, j | 0 <= i < j < |s + [p]| ensures (s + [p])[i].ts <= (s + [p])[j].ts {
      if j == |s| {
        assert s[i] in s;
      }
    }
  }

  /** Both passes keep time order. */
  lemma PassesKeepChronological<D>(s: seq<Circle<D>>, now: int, duration: real, fps: real, immediate: bool)
    requires Chronological(s)
    ensures Chronological(AfterUpdate(s, now, duration, fps, immediate))
    ensures Chronological(AfterExpire(s, now, duration))
  {
    var k := CutPoint(s, now, duration);
    var t := AfterUpdate(s, now, duration, fps, immediate);
    forall i, j | 0 <= i < j < |t| ensures t[i].ts <= t[j].ts {
      assert t[i].ts == s[k + i].ts && t[j].ts == s[k + j].ts;
    }
  }

  /**
   * A ping whose age equals the duration exactly survives the expiry pass, and
   * so does everything queued after it.
   */
  lemma BoundaryAgeSurvivesExpiry<D>(s: seq<Circle<D>>, now: int, duration: int, i: nat)
    requires i < |s| && now - s[i].ts == duration
    ensures ExpiredRun(s, now, duration as real) <= i
    ensures s[i..] == AfterExpire(s, now, duration as real)[i - ExpiredRun(s, now, duration as real)..]
  {
  }

  /**
   * The expiry pass in `ping`: the newest entry, stamped `now`, survives it
   * whenever the duration is not negative, so the queue is left non-empty.
   */
  lemma {:induction false} FreshPingSurvivesExpiry<D>(s: seq<Circle<D>>, p: Circle<D>, now: int, duration: real)
    requires p.ts == now && 0.0 <= duration
    ensures 0 < |AfterExpire(s + [p], now, duration)|
    ensures AfterExpire(s + [p], now, duration)[|AfterExpire(s + [p], now, duration)| - 1] == p
  {
    var t := s + [p];
    assert !Expired(t[|t| - 1], now, duration);
    assert ExpiredRun(t, now, duration) < |t|;
  }

  /**
   * On a queue in time order, the update pass is the visited queue after its
   * expired head, and it stays in time order.
   */
  lemma ChronologicalUpdate<D>(s: seq<Circle<D>>, now: int, duration: real, fps: real, immediate: bool)
    requires Chronological(s)
    ensures AfterUpdate(s, now, duration, fps, immediate) == VisitAll(s, now, duration, fps, immediate)[ExpiredRun(s, now, duration)..]
    ensures Chronological(AfterUpdate(s, now, duration, fps, immediate))
  {
    PassesKeepChronological(s, now, duration, fps, immediate);
    ChronologicalUpdateRemovesExactlyExpired(s, now, duration);
  }

  /**
   * The queue `ping` leaves when the clock does not run backwards: still in time
   * order, and — with a duration that is not negative — ending in the new ping.
   */
  lemma PingPass<D>(s: seq<Circle<D>>, p: Circle<D>, now: int, duration: real)
    requires p.ts == now
    ensures 0.0 <= duration ==> 0 < |AfterExpire(s + [p], now, duration)|
    ensures 0.0 <= duration ==> AfterExpire(s + [p], now, duration)[|AfterExpire(s + [p], now, duration)| - 1] == p
    ensures Chronological(s) && (forall q | q in s :: q.ts <= now) ==> Chronological(AfterExpire(s + [p], now, duration))
  {
    if 0.0 <= duration {
      FreshPingSurvivesExpiry(s, p, now, duration);
    }
    if Chronological(s) && (forall q | q in s :: q.ts <= now) {
      AppendKeepsChronological(s, p);
      PassesKeepChronological(s + [p], now, duration, 0.0, false);
    }
  }
}
