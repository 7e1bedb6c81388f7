/** Pushing metrics (pushInformerMetrics in cluster.go) and how fresh the monitor's view then is. */
module Freshness {
  import opened Types
  import opened Decimal
  import opened PeerMonitor
  import Allocation

  /** One firing of the timer, as delays between consecutive instants: the leader is not known; or the
      metric is made, arrives at the leader (if the call is `ok`), has its TTL read, and the timer is
      armed. */
  datatype Tick =
    | NoLeader(asking: Time)
    | Push(making: Time, delivering: Time, reading: Time, arming: Time, pins: nat, valid: bool, ok: bool)
  {
    function Made(fired: Time): Time
      requires Push?
    {
      fired + making
    }

    function Delivered(fired: Time): Time
      requires Push?
    {
      Made(fired) + delivering
    }

    function Read(fired: Time): Time
      requires Push?
    {
      Delivered(fired) + reading
    }

    function MetricOf(self: PeerId, fired: Time, ttl: int): Metric
      requires Push?
    {
      Metric(NUMPIN, self, Itoa(pins), 0, valid).SetTTL(ttl, Made(fired))
    }

    /** When the timer fires again: a timer set to a negative duration fires at once. */
    function NextFire(self: PeerId, fired: Time, ttl: int): Time {
      match this
      case NoLeader(asking) => fired + asking + 1.0
      case Push(_, _, _, _, _, _, _) =>
        var left := MetricOf(self, fired, ttl).GetTTL(Read(fired)) / 2.0;
        Read(fired) + arming + if left < 0.0 then 0.0 else left
    }
  }

  datatype Arrival = Arrival(at: Time, metric: Metric)

  /** What arrives at the monitor from a peer whose timer first fires at `fired`. */
  function Arrivals(self: PeerId, fired: Time, ticks: seq<Tick>, ttl: int): seq<Arrival>
    decreases |ticks|
  {
    if ticks == [] then []
    else
      var t := ticks[0];
      (if t.Push? && t.ok then [Arrival(t.Delivered(fired), t.MetricOf(self, fired, ttl))] else [])
      + Arrivals(self, t.NextFire(self, fired, ttl), ticks[1..], ttl)
  }

  /** When the timer fires after all of `ticks`. */
  function FireAfter(self: PeerId, fired: Time, ticks: seq<Tick>, ttl: int): Time
    decreases |ticks|
  {
    if ticks == [] then fired
    else FireAfter(self, ticks[0].NextFire(self, fired, ttl), ticks[1..], ttl)
  }

  function Metrics(arrivals: seq<Arrival>): (metrics: seq<Metric>)
    ensures |metrics| == |arrivals|
  {
    seq(|arrivals|, i requires 0 <= i < |arrivals| => arrivals[i].metric)
  }

  lemma MetricsCons(a: Arrival, rest: seq<Arrival>)
    ensures Metrics([a] + rest) == [a.metric] + Metrics(rest)
  {
  }

  /** The loop, with the outcome and the delays of each round given. */
  method PushInformerMetrics(mon: StdPeerMonitor, self: PeerId, start: Time, ticks: seq<Tick>, ttl: int)
    returns (fired: Time)
    requires mon.Valid()
    modifies mon, mon.owners.Keys
    ensures mon.Valid() && mon.log == old(mon.log) + Metrics(Arrivals(self, start, ticks, ttl))
    ensures fired == FireAfter(self, start, ticks, ttl)
  {
    hide StdPeerMonitor.Valid, Itoa, Metrics, Arrived;
    fired := start;
    assert ticks[0..] == ticks;
    for i := 0 to |ticks|
      invariant mon.Valid() && fresh(mon.owners.Keys - old(mon.owners).Keys)
      invariant mon.log + Metrics(Arrivals(self, fired, ticks[i..], ttl))
             == old(mon.log) + Metrics(Arrivals(self, start, ticks, ttl))
      invariant FireAfter(self, fired, ticks[i..], ttl) == FireAfter(self, start, ticks, ttl)
    {
      var tick := ticks[i];
      assert ticks[i..][0] == tick && ticks[i..][1..] == ticks[i + 1..];
      ghost var later := Arrivals(self, tick.NextFire(self, fired, ttl), ticks[i + 1..], ttl);
      assert [] + later == later;
      if tick.NoLeader? {
        fired := fired + tick.asking + 1.0;
        continue;
      }
      var now := fired + tick.making;
      var metric := Metric(NUMPIN, self, Itoa(tick.pins), 0, tick.valid).SetTTL(ttl, now);
      now := now + tick.delivering;
      if tick.ok {
        MetricsCons(Arrival(now, metric), later);
        mon.LogMetric(metric);
      }
      now := now + tick.reading;
      var wait := metric.GetTTL(now) / 2.0;
      now := now + tick.arming;
      fired := if wait < 0.0 then now else now + wait;
    }
  }

  // ---- one round, spelled out -----------------------------------------------------------------

  /** Without a leader nothing is sent and the timer fires after another second. Otherwise the metric
      carries the number of pins and the whole second in which its TTL ends; it arrives unless the call
      fails; the timer fires after half of the TTL that was left, or at once if none was. */
  ghost predicate Round(self: PeerId, fired: Time, t: Tick, ttl: int, sent: seq<Arrival>, next: Time) {
    match t
    case NoLeader(asking) => sent == [] && next == fired + asking + 1.0
    case Push(making, delivering, reading, arming, pins, valid, ok) =>
      exists expire: int ::
        && (var ends := fired + making + ttl as real; ends - 1.0 < expire as real <= ends)
        && sent == (if ok then [Arrival(fired + making + delivering, Metric("numpin", self, Itoa(pins), expire, valid))]
                    else [])
        && (var read := fired + making + delivering + reading;
            if expire as real < read then next == read + arming
            else 2.0 * (next - read - arming) == expire as real - read)
  }

  lemma RoundByRound(self: PeerId, fired: Time, t: Tick, rest: seq<Tick>, ttl: int)
      returns (sent: seq<Arrival>, next: Time)
    ensures Round(self, fired, t, ttl, sent, next)
    ensures Arrivals(self, fired, [t] + rest, ttl) == sent + Arrivals(self, next, rest, ttl)
    ensures FireAfter(self, fired, [t] + rest, ttl) == FireAfter(self, next, rest, ttl)
  {
    assert ([t] + rest)[1..] == rest;
    next := t.NextFire(self, fired, ttl);
    sent := [];
    if t.Push? {
      var m := t.MetricOf(self, fired, ttl);
      var ends := t.Made(fired) + ttl as real;
      assert ends - 1.0 < m.expire as real <= ends;
      if t.ok {
        sent := [Arrival(t.Delivered(fired), m)];
      }
    }
  }

  /** While it is unexpired, what a peer pushes is a metric the allocator counts with: the pins of the
      peer. */
  lemma PushedIsUsable(self: PeerId, fired: Time, t: Tick, ttl: int, now: Time)
    requires t.Push? && t.valid && t.pins <= MAX_INT
    requires now <= t.MetricOf(self, fired, ttl).expire as real
    ensures var m := t.MetricOf(self, fired, ttl);
      m.peer == self && Allocation.Usable(m, now) && Allocation.Sortable(m, now) && Allocation.PinCount(m) == t.pins
  {
    AtoiItoa(t.pins);
  }

  // ---- freshness ------------------------------------------------------------------------------

  /** A stable leader and valid metrics; each push is delivered and its TTL read within `delta` of the
      timer firing, and the timer is armed within `epsilon` of that reading. */
  ghost predicate Timely(ticks: seq<Tick>, delta: Time, epsilon: Time) {
    forall i :: 0 <= i < |ticks| ==> TimelyTick(ticks[i], delta, epsilon)
  }

  ghost predicate TimelyTick(t: Tick, delta: Time, epsilon: Time) {
    && t.Push? && t.valid && t.ok
    && t.making >= 0.0 && t.delivering >= 0.0 && t.reading >= 0.0 && 0.0 <= t.arming <= epsilon
    && t.making + t.delivering + t.reading <= delta
  }

  /** What has arrived by `now`. */
  function Arrived(arrivals: seq<Arrival>, now: Time): seq<Metric> {
    if arrivals == [] || arrivals[0].at > now then [] else [arrivals[0].metric] + Arrived(arrivals[1..], now)
  }

  ghost predicate FreshAt(arrivals: seq<Arrival>, now: Time) {
    var got := Arrived(arrivals, now);
    got != [] && !got[|got| - 1].Discard(now)
  }

  /** `now` is between the first and the last arrival. */
  ghost predicate Covered(arrivals: seq<Arrival>, now: Time) {
    arrivals != [] && arrivals[0].at <= now <= arrivals[|arrivals| - 1].at
  }

  ghost predicate AlwaysFresh(ttl: int, delta: Time, epsilon: Time) {
    forall self, start, ticks, now ::
      Timely(ticks, delta, epsilon) && Covered(Arrivals(self, start, ticks, ttl), now) ==>
        FreshAt(Arrivals(self, start, ticks, ttl), now)
  }

  lemma ArrivalsOfPush(self: PeerId, fired: Time, ticks: seq<Tick>, ttl: int)
    requires ticks != [] && ticks[0].Push? && ticks[0].ok
    ensures var t := ticks[0]; var arrivals := Arrivals(self, fired, ticks, ttl);
      arrivals != [] && arrivals[0] == Arrival(t.Delivered(fired), t.MetricOf(self, fired, ttl))
      && arrivals[1..] == Arrivals(self, t.NextFire(self, fired, ttl), ticks[1..], ttl)
  {
  }

  /** The next metric arrives before this one expires, although the expiry was truncated. */
  lemma NextArrivesInTime(self: PeerId, fired: Time, t: Tick, next: Tick, ttl: int, delta: Time, epsilon: Time)
    requires TimelyTick(t, delta, epsilon) && TimelyTick(next, delta, epsilon)
    requires 3.0 * delta + 2.0 * epsilon <= ttl as real - 1.0
    ensures next.Delivered(t.NextFire(self, fired, ttl)) < t.MetricOf(self, fired, ttl).expire as real
  {
    assert (t.Made(fired) + ttl as real).Floor as real > t.Made(fired) + ttl as real - 1.0;
  }

  lemma {:induction false} FreshThroughout(
      self: PeerId, start: Time, ticks: seq<Tick>, ttl: int, delta: Time, epsilon: Time, now: Time)
    requires Timely(ticks, delta, epsilon) && Covered(Arrivals(self, start, ticks, ttl), now)
    requires 3.0 * delta + 2.0 * epsilon <= ttl as real - 1.0
    ensures FreshAt(Arrivals(self, start, ticks, ttl), now)
    decreases |ticks|
  {
    hide Arrivals;
    assert ticks != [] by { ArrivalsOfNone(self, start, ttl); }
    var t := ticks[0];
    assert TimelyTick(t, delta, epsilon);
    ArrivalsOfPush(self, start, ticks, ttl);
    var arrivals := Arrivals(self, start, ticks, ttl);
    var later := Arrivals(self, t.NextFire(self, start, ttl), ticks[1..], ttl);
    if |ticks| > 1 {
      ArrivalsOfPush(self, t.NextFire(self, start, ttl), ticks[1..], ttl);
      NextArrivesInTime(self, start, t, ticks[1], ttl, delta, epsilon);
      if later[0].at <= now {
        FreshThroughout(self, t.NextFire(self, start, ttl), ticks[1..], ttl, delta, epsilon, now);
      }
    } else {
      ArrivalsOfNone(self, t.NextFire(self, start, ttl), ttl);
    }
  }

  lemma ArrivalsOfNone(self: PeerId, fired: Time, ttl: int)
    ensures Arrivals(self, fired, [], ttl) == []
  {
  }

  lemma ArrivedOfTwo(arrivals: seq<Arrival>, now: Time)
    requires |arrivals| == 2 && arrivals[0].at <= now
    ensures Arrived(arrivals, now)
         == if arrivals[1].at > now then [arrivals[0].metric] else [arrivals[0].metric, arrivals[1].metric]
  {
    assert arrivals[1..][1..] == [];
    assert Arrived(arrivals[1..], now) == if arrivals[1].at > now then [] else [arrivals[1].metric];
  }

  /** Two pushes whose first metric lost nearly a whole second to truncation. */
  lemma GapBeyondBound(ttl: int, delta: Time, epsilon: Time)
      returns (start: Time, ticks: seq<Tick>, now: Time)
    requires delta >= 0.0 && epsilon >= 0.0
    requires 3.0 * delta + 2.0 * epsilon > ttl as real - 1.0
    ensures Timely(ticks, delta, epsilon) && Covered(Arrivals("", start, ticks, ttl), now)
    ensures !FreshAt(Arrivals("", start, ticks, ttl), now)
  {
    hide Arrivals;
    var excess := 3.0 * delta + 2.0 * epsilon - (ttl as real - 1.0);
    var kept := if excess < 1.0 then excess / 2.0 else 0.5;
    start := 1.0 - kept;
    var t := Push(0.0, delta, 0.0, epsilon, 0, true, true);
    ticks := [t, t];
    assert (start + ttl as real).Floor == ttl;
    var second := t.NextFire("", start, ttl);
    ArrivalsOfPush("", start, ticks, ttl);
    assert ticks[1..] == [t] && [t][1..] == [];
    ArrivalsOfPush("", second, [t], ttl);
    ArrivalsOfNone("", t.NextFire("", second, ttl), ttl);
    var first := start + delta;
    now := if first > ttl as real then first else (ttl as real + t.Delivered(second)) / 2.0;
    var arrivals := Arrivals("", start, ticks, ttl);
    ArrivedOfTwo(arrivals, now);
  }

  /** The bound is exact. */
  lemma FreshnessExact(ttl: int, delta: Time, epsilon: Time)
    requires delta >= 0.0 && epsilon >= 0.0
    ensures AlwaysFresh(ttl, delta, epsilon) <==> 3.0 * delta + 2.0 * epsilon <= ttl as real - 1.0
  {
    if 3.0 * delta + 2.0 * epsilon <= ttl as real - 1.0 {
      forall self, start, ticks, now |
        Timely(ticks, delta, epsilon) && Covered(Arrivals(self, start, ticks, ttl), now)
        ensures FreshAt(Arrivals(self, start, ticks, ttl), now)
      {
        FreshThroughout(self, start, ticks, ttl, delta, epsilon, now);
      }
    } else {
      var start, ticks, now := GapBeyondBound(ttl, delta, epsilon);
    }
  }

  /** With any other traffic in the log, LastMetrics holds the peer's metric exactly when the newest
      arrival is unexpired. */
  lemma MonitorShows(arrivals: seq<Arrival>, self: PeerId, now: Time, log: seq<Metric>, ms: seq<Metric>)
    requires Of(log, NUMPIN, self) == Arrived(arrivals, now) && LastMetricsOf(ms, log, NUMPIN, now)
    ensures FreshAt(arrivals, now) <==> exists i :: 0 <= i < |ms| && ms[i].peer == self
  {
    LatestIsLast(log, NUMPIN, self);
    if FreshAt(arrivals, now) {
      assert LatestOf(log, NUMPIN, self).value in ms;
    }
  }

  /** Between the first and the last arrival at the leader, whatever else is logged there, LastMetrics
      holds the peer's metric. */
  lemma MonitorStaysFresh(
      self: PeerId, start: Time, ticks: seq<Tick>, ttl: int, delta: Time, epsilon: Time, now: Time,
      log: seq<Metric>, ms: seq<Metric>)
    requires Timely(ticks, delta, epsilon) && Covered(Arrivals(self, start, ticks, ttl), now)
    requires 3.0 * delta + 2.0 * epsilon <= ttl as real - 1.0
    requires Of(log, NUMPIN, self) == Arrived(Arrivals(self, start, ticks, ttl), now)
    requires LastMetricsOf(ms, log, NUMPIN, now)
    ensures exists i :: 0 <= i < |ms| && ms[i].peer == self && !ms[i].Discard(now)
  {
    FreshThroughout(self, start, ticks, ttl, delta, epsilon, now);
    LatestIsLast(log, NUMPIN, self);
    var m := LatestOf(log, NUMPIN, self).value;
    assert m in ms;
  }

  /** Arrivals reach any instant: the timer advances by at least `step` a round. */
  lemma {:induction false} FiringsAdvance(
      self: PeerId, start: Time, ticks: seq<Tick>, ttl: int, delta: Time, epsilon: Time, step: Time)
    requires Timely(ticks, delta, epsilon)
    requires 2.0 * step <= ttl as real - 1.0 - delta
    ensures FireAfter(self, start, ticks, ttl) >= start + |ticks| as real * step
    decreases |ticks|
  {
    hide Tick.NextFire, TimelyTick;
    if ticks != [] {
      var t := ticks[0];
      assert TimelyTick(t, delta, epsilon);
      var next := t.NextFire(self, start, ttl);
      RoundLasts(self, start, t, ttl, delta, epsilon, step);
      FiringsAdvance(self, next, ticks[1..], ttl, delta, epsilon, step);
      OneRoundMore(|ticks[1..]|, step);
    }
  }

  lemma RoundLasts(self: PeerId, fired: Time, t: Tick, ttl: int, delta: Time, epsilon: Time, step: Time)
    requires TimelyTick(t, delta, epsilon) && 2.0 * step <= ttl as real - 1.0 - delta
    ensures t.NextFire(self, fired, ttl) >= fired + step
  {
    assert (t.Made(fired) + ttl as real).Floor as real > t.Made(fired) + ttl as real - 1.0;
  }

  lemma OneRoundMore(n: nat, step: Time)
    ensures (n + 1) as real * step == n as real * step + step
  {
    assert (n + 1) as real == n as real + 1.0;
  }

  // ---- for ever -------------------------------------------------------------------------------

  /** The first `n` rounds of a loop that never ends. */
  function First(ticks: nat -> Tick, n: nat): seq<Tick> {
    seq(n, i requires 0 <= i < n => ticks(i))
  }

  ghost predicate AlwaysTimely(ticks: nat -> Tick, delta: Time, epsilon: Time) {
    forall i: nat :: TimelyTick(ticks(i), delta, epsilon)
  }

  /** However far the loop has come beyond the first `n` rounds, the newest arrival is unexpired at `now`. */
  ghost predicate FreshFrom(self: PeerId, start: Time, ticks: nat -> Tick, ttl: int, n: nat, now: Time) {
    forall m: nat :: m >= n ==> FreshAt(Arrivals(self, start, First(ticks, m), ttl), now)
  }

  /** The first metric has arrived by `now`. */
  predicate Started(start: Time, ticks: nat -> Tick, now: Time) {
    ticks(0).Push? && ticks(0).Delivered(start) <= now
  }

  ghost predicate EventuallyFresh(
      self: PeerId, start: Time, ticks: nat -> Tick, ttl: int, delta: Time, epsilon: Time, now: Time)
  {
    AlwaysTimely(ticks, delta, epsilon) && Started(start, ticks, now) ==>
      exists n :: FreshFrom(self, start, ticks, ttl, n, now)
  }

  ghost predicate FreshForever(ttl: int, delta: Time, epsilon: Time) {
    forall self, start, ticks: nat -> Tick, now :: EventuallyFresh(self, start, ticks, ttl, delta, epsilon, now)
  }

  lemma {:induction false} LastArrival(self: PeerId, start: Time, ticks: seq<Tick>, ttl: int, delta: Time, epsilon: Time)
    requires Timely(ticks, delta, epsilon) && ticks != []
    ensures var arrivals := Arrivals(self, start, ticks, ttl);
      && arrivals != [] && arrivals[0].at == ticks[0].Delivered(start)
      && arrivals[|arrivals| - 1].at >= FireAfter(self, start, ticks[..|ticks| - 1], ttl)
    decreases |ticks|
  {
    hide Arrivals;
    var t := ticks[0];
    assert TimelyTick(t, delta, epsilon);
    ArrivalsOfPush(self, start, ticks, ttl);
    var next := t.NextFire(self, start, ttl);
    if |ticks| > 1 {
      LastArrival(self, next, ticks[1..], ttl, delta, epsilon);
      var front := ticks[..|ticks| - 1];
      assert front[1..] == ticks[1..][..|ticks| - 2];
    } else {
      ArrivalsOfNone(self, next, ttl);
    }
  }

  lemma {:induction false} TimelyPrefix(ticks: seq<Tick>, n: nat, delta: Time, epsilon: Time)
    requires n <= |ticks| && Timely(ticks, delta, epsilon)
    ensures Timely(ticks[..n], delta, epsilon)
  {
    assert forall i :: 0 <= i < n ==> TimelyTick(ticks[i], delta, epsilon);
  }

  predicate Past(start: Time, step: Time, m: nat, now: Time) {
    start + (m - 1) as real * step >= now
  }

  /** Enough rounds pass any instant. */
  lemma RoundsReach(now: Time, start: Time, step: Time) returns (n: nat)
    requires step > 0.0
    ensures n >= 1 && forall m: nat :: m >= n ==> Past(start, step, m, now)
  {
    var rounds := ((now - start) / step).Floor + 1;
    n := (if rounds < 0 then 0 else rounds) + 1;
    forall m: nat | m >= n
      ensures Past(start, step, m, now)
    {
      assert (m - 1) as real >= (now - start) / step;
      Scaled((m - 1) as real, (now - start) / step, step);
    }
  }

  lemma Scaled(x: real, y: real, step: real)
    requires x >= y && step > 0.0
    ensures x * step >= y * step
  {
  }

  lemma CoveredFrom(
      self: PeerId, start: Time, ticks: nat -> Tick, ttl: int, delta: Time, epsilon: Time, step: Time, m: nat, now: Time)
    requires AlwaysTimely(ticks, delta, epsilon) && Started(start, ticks, now)
    requires 2.0 * step <= ttl as real - 1.0 - delta
    requires m >= 1 && Past(start, step, m, now)
    ensures Timely(First(ticks, m), delta, epsilon) && Covered(Arrivals(self, start, First(ticks, m), ttl), now)
  {
    hide Arrivals, FireAfter;
    var all := First(ticks, m);
    assert Timely(all, delta, epsilon);
    LastArrival(self, start, all, ttl, delta, epsilon);
    TimelyPrefix(all, m - 1, delta, epsilon);
    FiringsAdvance(self, start, all[..m - 1], ttl, delta, epsilon, step);
  }

  lemma FreshAfterStart(self: PeerId, start: Time, ticks: nat -> Tick, ttl: int, delta: Time, epsilon: Time, now: Time)
      returns (n: nat)
    requires ttl > 1 && delta >= 0.0 && epsilon >= 0.0 && 3.0 * delta + 2.0 * epsilon <= ttl as real - 1.0
    requires AlwaysTimely(ticks, delta, epsilon) && Started(start, ticks, now)
    ensures FreshFrom(self, start, ticks, ttl, n, now)
  {
    hide Arrivals, Covered, AlwaysTimely, Started, FreshAt;
    var step := (ttl as real - 1.0 - delta) / 2.0;
    n := RoundsReach(now, start, step);
    forall m: nat | m >= n
      ensures FreshAt(Arrivals(self, start, First(ticks, m), ttl), now)
    {
      CoveredFrom(self, start, ticks, ttl, delta, epsilon, step, m, now);
      FreshThroughout(self, start, First(ticks, m), ttl, delta, epsilon, now);
    }
  }

  /** Beyond the bound: a loop of equal rounds, and an instant at which the newest arrival has expired
      however many rounds are run. */
  lemma StaleBeyondBound(ttl: int, delta: Time, epsilon: Time) returns (start: Time, t: Tick, now: Time)
    requires ttl > 1 && delta >= 0.0 && epsilon >= 0.0 && 3.0 * delta + 2.0 * epsilon > ttl as real - 1.0
    ensures TimelyTick(t, delta, epsilon) && t.Delivered(start) <= now
    ensures now < t.Delivered(t.NextFire("", start, ttl)) && t.MetricOf("", start, ttl).Discard(now)
  {
    var excess := 3.0 * delta + 2.0 * epsilon - (ttl as real - 1.0);
    var kept := if excess < 1.0 then excess / 2.0 else 0.5;
    start := 1.0 - kept;
    t := Push(0.0, delta, 0.0, epsilon, 0, true, true);
    assert (start + ttl as real).Floor == ttl;
    var first := start + delta;
    now := if first > ttl as real then first else (ttl as real + t.Delivered(t.NextFire("", start, ttl))) / 2.0;
  }

  lemma StaleFrom(start: Time, t: Tick, ttl: int, m: nat, now: Time)
    requires t.Push? && t.ok && t.Delivered(start) <= now && m >= 2
    requires now < t.Delivered(t.NextFire("", start, ttl)) && t.MetricOf("", start, ttl).Discard(now)
    ensures !FreshAt(Arrivals("", start, First(_ => t, m), ttl), now)
  {
    hide Arrivals;
    var all := First(_ => t, m);
    ArrivalsOfPush("", start, all, ttl);
    ArrivalsOfPush("", t.NextFire("", start, ttl), all[1..], ttl);
    var arrivals := Arrivals("", start, all, ttl);
    assert Arrived(arrivals[1..], now) == [];
    assert Arrived(arrivals, now) == [arrivals[0].metric];
  }

  /** The peer's newest metric is unexpired at every time after the first arrival, in every endless
      run, if and only if the bound holds. */
  lemma FreshForeverExact(ttl: int, delta: Time, epsilon: Time)
    requires ttl > 1 && delta >= 0.0 && epsilon >= 0.0
    ensures FreshForever(ttl, delta, epsilon) <==> 3.0 * delta + 2.0 * epsilon <= ttl as real - 1.0
  {
    hide AlwaysTimely, FreshFrom, Started, Arrivals, FreshAt, TimelyTick;
    if 3.0 * delta + 2.0 * epsilon <= ttl as real - 1.0 {
      forall self, start, ticks: nat -> Tick, now
        ensures EventuallyFresh(self, start, ticks, ttl, delta, epsilon, now)
      {
        if AlwaysTimely(ticks, delta, epsilon) && Started(start, ticks, now) {
          var n := FreshAfterStart(self, start, ticks, ttl, delta, epsilon, now);
        }
      }
    } else {
      NotForever(ttl, delta, epsilon);
    }
  }

  lemma NotForever(ttl: int, delta: Time, epsilon: Time)
    requires ttl > 1 && delta >= 0.0 && epsilon >= 0.0 && 3.0 * delta + 2.0 * epsilon > ttl as real - 1.0
    ensures !FreshForever(ttl, delta, epsilon)
  {
    hide Arrivals, FreshAt;
    var start, t, now := StaleBeyondBound(ttl, delta, epsilon);
    var ticks: nat -> Tick := _ => t;
    assert AlwaysTimely(ticks, delta, epsilon) && Started(start, ticks, now);
    forall n: nat
      ensures !FreshFrom("", start, ticks, ttl, n, now)
    {
      var m := n + 2;
      StaleFrom(start, t, ttl, m, now);
      assert First(ticks, m) == First(_ => t, m);
    }
    assert !EventuallyFresh("", start, ticks, ttl, delta, epsilon, now);
  }
}
