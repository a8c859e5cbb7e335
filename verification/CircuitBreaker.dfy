/** The circuit breaker: a latching halt, four latched conditions, and the queue of
    triggers awaiting publication. Times are nanoseconds. */
module Breaker {
  import opened Fills
  import Ring = SpscRing

  datatype Trigger = Drawdown | Unhedged | DailyLoss | Rejections | WsDisconnect | Exception

  datatype Limits = Limits(drawdownMinEquity: real, maxDrawdownPct: real, maxUnhedgedSeconds: int,
                           maxDailyLoss: real, maxRejections: int)

  /** What one monitor tick reads. Equity is read twice, once for each use. */
  datatype Tick = Tick(now: int, wall: int, equity: real, inv: real, pnl: real, rejections: int)

  /** When the current non-flat run was first seen, and whether it has fired. */
  datatype Timer = Timer(started: bool, at: int, active: bool)

  datatype Watch = Watch(peak: real, drawdown: bool, timer: Timer, dailyLoss: bool, rejections: bool)

  /** The halt, everything that has ever fired, and what became of it. */
  datatype Alarm = Alarm(halted: bool, haltedAt: int, fired: seq<Trigger>, pending: seq<Trigger>,
                         published: seq<Trigger>, dropped: nat, refused: nat)

  /** `ring` is the outgoing ring, and `consumed` what its reader has taken. */
  datatype State = State(watch: Watch, alarm: Alarm, ring: seq<Trigger>, consumed: seq<Trigger>)

  const QUIET := Alarm(false, 0, [], [], [], 0, 0)
  const UNWATCHED := Watch(0.0, false, Timer(false, 0, false), false, false)
  const START := State(UNWATCHED, QUIET, [], [])

  const RISK_RING_CAPACITY := 1023
  const PENDING_CAP := 64
  const INVENTORY_EPSILON: real := 0.000001

  predicate NonFlat(inv: real) {
    Abs(inv) > INVENTORY_EPSILON
  }

  /** Whole milliseconds, truncated toward zero. */
  function ElapsedMs(from: int, to: int): int {
    if from <= to then (to - from) / 1_000_000 else -((from - to) / 1_000_000)
  }

  /** Drawdown in percent above the limit. At a peak of zero the quotient is infinite for
      negative equity and not a number, hence never above, for zero. */
  predicate DrawdownOver(peak: real, equity: real, limit: real) {
    if peak == 0.0 then equity < 0.0 else (peak - equity) / peak * 100.0 > limit
  }

  function Raised(a: Alarm, t: Trigger, wall: int): Alarm {
    var a' := a.(halted := true, haltedAt := if a.halted then a.haltedAt else wall, fired := a.fired + [t]);
    if |a.pending| < PENDING_CAP then a'.(pending := a.pending + [t]) else a'.(dropped := a.dropped + 1)
  }

  function RaisedAll(a: Alarm, ts: seq<Trigger>, wall: int): Alarm {
    if ts == [] then a else Raised(RaisedAll(a, ts[..|ts| - 1], wall), ts[|ts| - 1], wall)
  }

  /** The ring after these have been offered to it in turn, what it took, and how many it
      refused. */
  datatype Handover = Handover(ring: seq<Trigger>, taken: seq<Trigger>, refused: nat)

  function HandedOver(ring: seq<Trigger>, ts: seq<Trigger>): Handover {
    if ts == [] then Handover(ring, [], 0)
    else
      var h, t := HandedOver(ring, ts[..|ts| - 1]), ts[|ts| - 1];
      var (ok, ring') := Ring.Offer(h.ring, RISK_RING_CAPACITY, t);
      if ok then Handover(ring', h.taken + [t], h.refused) else h.(refused := h.refused + 1)
  }

  function Published(a: Alarm, h: Handover): Alarm {
    a.(published := a.published + h.taken, refused := a.refused + h.refused, pending := [])
  }

  function HigherPeak(peak: real, equity: real): real {
    if equity > peak then equity else peak
  }

  predicate DrawdownAt(peak: real, latched: bool, l: Limits, equity: real) {
    if peak > l.drawdownMinEquity then DrawdownOver(peak, equity, l.maxDrawdownPct) else latched
  }

  function TimerAt(timer: Timer, l: Limits, t: Tick): Timer {
    if !NonFlat(t.inv) then timer.(started := false, active := false)
    else if !timer.started then timer.(started := true, at := t.now)
    else if ElapsedMs(timer.at, t.now) > l.maxUnhedgedSeconds * 1000 then timer.(active := true)
    else timer
  }

  function Watched(w: Watch, l: Limits, t: Tick): Watch {
    var peak := HigherPeak(w.peak, t.equity);
    Watch(peak, DrawdownAt(peak, w.drawdown, l, t.equity), TimerAt(w.timer, l, t),
          t.pnl <= -l.maxDailyLoss, t.rejections > l.maxRejections)
  }

  /** What fires between two readings of a latch: the trigger, when the latch goes up. */
  function Rising(before: bool, now: bool, t: Trigger): seq<Trigger> {
    if now && !before then [t] else []
  }

  function RisingLatches(w: Watch, w': Watch): seq<Trigger> {
    Rising(w.drawdown, w'.drawdown, Drawdown) + Rising(w.timer.active, w'.timer.active, Unhedged)
    + Rising(w.dailyLoss, w'.dailyLoss, DailyLoss) + Rising(w.rejections, w'.rejections, Rejections)
  }

  function Ticked(s: State, l: Limits, t: Tick): State {
    var w := Watched(s.watch, l, t);
    var a := RaisedAll(s.alarm, RisingLatches(s.watch, w), t.wall);
    var h := HandedOver(s.ring, a.pending);
    State(w, Published(a, h), h.ring, s.consumed)
  }

  lemma {:induction false} RaisedTwice(a: Alarm, ts: seq<Trigger>, us: seq<Trigger>, wall: int)
    ensures RaisedAll(RaisedAll(a, ts, wall), us, wall) == RaisedAll(a, ts + us, wall)
    decreases |us|
  {
    if us == [] {
      assert ts + us == ts;
    } else {
      var n := |us| - 1;
      RaisedTwice(a, ts, us[..n], wall);
      assert (ts + us)[..|ts| + n] == ts + us[..n];
    }
  }

  lemma RaisedRising(a: Alarm, before: bool, now: bool, t: Trigger, wall: int)
    ensures RaisedAll(a, Rising(before, now, t), wall) == if now && !before then Raised(a, t, wall) else a
  {
    assert [t][..0] == [];
  }

  class CircuitBreaker {
    const limits: Limits
    const outRing: Ring.Ring<Trigger>
    var halted: bool
    var haltedAt: int
    var peak: real
    var invStarted: bool
    var invStartedAt: int
    var ddActive: bool
    var unhedgedActive: bool
    var dailyLossActive: bool
    var rejActive: bool
    var pending: seq<Trigger>
    var fired: seq<Trigger>
    var published: seq<Trigger>
    var dropped: nat
    var refused: nat

    ghost predicate Valid()
      reads outRing
    {
      outRing.Valid() && outRing.buffer.Length == RISK_RING_CAPACITY + 1
    }

    function AlarmNow(): Alarm
      reads `halted, `haltedAt, `fired, `pending, `published, `dropped, `refused
    {
      Alarm(halted, haltedAt, fired, pending, published, dropped, refused)
    }

    function TimerNow(): Timer
      reads `invStarted, `invStartedAt, `unhedgedActive
    {
      Timer(invStarted, invStartedAt, unhedgedActive)
    }

    function WatchNow(): Watch
      reads `peak, `ddActive, `invStarted, `invStartedAt, `unhedgedActive, `dailyLossActive, `rejActive
    {
      Watch(peak, ddActive, TimerNow(), dailyLossActive, rejActive)
    }

    constructor (limits: Limits, outRing: Ring.Ring<Trigger>)
      ensures WatchNow() == UNWATCHED && AlarmNow() == QUIET && this.limits == limits && this.outRing == outRing
    {
      this.limits, this.outRing := limits, outRing;
      halted, haltedAt, peak, invStarted, invStartedAt := false, 0, 0.0, false, 0;
      ddActive, unhedgedActive, dailyLossActive, rejActive := false, false, false, false;
      fired, pending, published, dropped, refused := [], [], [], 0, 0;
    }

    method SetHaltAndEnqueue(t: Trigger, wall: int)
      modifies `halted, `haltedAt, `fired, `pending, `dropped
      ensures AlarmNow() == Raised(old(AlarmNow()), t, wall)
    {
      if !halted {
        halted := true;
        haltedAt := wall;
      }
      fired := fired + [t];
      if |pending| < PENDING_CAP {
        pending := pending + [t];
      } else {
        dropped := dropped + 1;
      }
    }

    method Notify(t: Trigger, wall: int)
      modifies `halted, `haltedAt, `fired, `pending, `dropped
      ensures AlarmNow() == Raised(old(AlarmNow()), t, wall)
    {
      SetHaltAndEnqueue(t, wall);
    }

    /** Only the monitor thread writes to the ring. */
    method PublishPending()
      requires Valid()
      modifies `published, `pending, `refused, outRing`head, outRing.buffer
      ensures Valid()
      ensures var h := HandedOver(old(outRing.Contents()), old(pending));
              AlarmNow() == Published(old(AlarmNow()), h) && outRing.Contents() == h.ring
    {
      var local := pending;
      pending := [];
      for i := 0 to |local|
        invariant Valid() && pending == []
        invariant HandedOver(old(outRing.Contents()), local[..i]).ring == outRing.Contents()
        invariant published == old(published) + HandedOver(old(outRing.Contents()), local[..i]).taken
        invariant refused == old(refused) + HandedOver(old(outRing.Contents()), local[..i]).refused
      {
        assert local[..i + 1][..i] == local[..i];
        var ok := outRing.Push(local[i]);
        if ok {
          published := published + [local[i]];
        } else {
          refused := refused + 1;
        }
      }
      assert local[..|local|] == local;
    }

    method TickDrawdown(t: Tick)
      modifies `peak, `ddActive, `halted, `haltedAt, `fired, `pending, `dropped
      ensures peak == HigherPeak(old(peak), t.equity)
      ensures ddActive == DrawdownAt(peak, old(ddActive), limits, t.equity)
      ensures AlarmNow() == RaisedAll(old(AlarmNow()), Rising(old(ddActive), ddActive, Drawdown), t.wall)
    {
      if t.equity > peak {
        peak := t.equity;
      }
      if peak > limits.drawdownMinEquity {
        if DrawdownOver(peak, t.equity, limits.maxDrawdownPct) {
          if !ddActive {
            ddActive := true;
            SetHaltAndEnqueue(Drawdown, t.wall);
          }
        } else {
          ddActive := false;
        }
      }
      RaisedRising(old(AlarmNow()), old(ddActive), ddActive, Drawdown, t.wall);
    }

    method TickUnhedged(t: Tick)
      modifies `invStarted, `invStartedAt, `unhedgedActive, `halted, `haltedAt, `fired, `pending, `dropped
      ensures TimerNow() == TimerAt(old(TimerNow()), limits, t)
      ensures AlarmNow() == RaisedAll(old(AlarmNow()), Rising(old(unhedgedActive), unhedgedActive, Unhedged), t.wall)
    {
      if Abs(t.inv) > INVENTORY_EPSILON {
        if !invStarted {
          invStarted := true;
          invStartedAt := t.now;
        } else if ElapsedMs(invStartedAt, t.now) > limits.maxUnhedgedSeconds * 1000 && !unhedgedActive {
          unhedgedActive := true;
          SetHaltAndEnqueue(Unhedged, t.wall);
        }
      } else {
        invStarted := false;
        unhedgedActive := false;
      }
      RaisedRising(old(AlarmNow()), old(unhedgedActive), unhedgedActive, Unhedged, t.wall);
    }

    method TickDailyLoss(t: Tick)
      modifies `dailyLossActive, `halted, `haltedAt, `fired, `pending, `dropped
      ensures dailyLossActive == (t.pnl <= -limits.maxDailyLoss)
      ensures AlarmNow() == RaisedAll(old(AlarmNow()), Rising(old(dailyLossActive), dailyLossActive, DailyLoss), t.wall)
    {
      if t.pnl <= -limits.maxDailyLoss {
        if !dailyLossActive {
          dailyLossActive := true;
          SetHaltAndEnqueue(DailyLoss, t.wall);
        }
      } else {
        dailyLossActive := false;
      }
      RaisedRising(old(AlarmNow()), old(dailyLossActive), dailyLossActive, DailyLoss, t.wall);
    }

    method TickRejections(t: Tick)
      modifies `rejActive, `halted, `haltedAt, `fired, `pending, `dropped
      ensures rejActive == (t.rejections > limits.maxRejections)
      ensures AlarmNow() == RaisedAll(old(AlarmNow()), Rising(old(rejActive), rejActive, Rejections), t.wall)
    {
      if t.rejections > limits.maxRejections {
        if !rejActive {
          rejActive := true;
          SetHaltAndEnqueue(Rejections, t.wall);
        }
      } else {
        rejActive := false;
      }
      RaisedRising(old(AlarmNow()), old(rejActive), rejActive, Rejections, t.wall);
    }

    /** The four checks, each raising what it fires. */
    method CheckAll(t: Tick)
      modifies this
      ensures WatchNow() == Watched(old(WatchNow()), limits, t)
      ensures AlarmNow() == RaisedAll(old(AlarmNow()), RisingLatches(old(WatchNow()), WatchNow()), t.wall)
    {
      hide RaisedAll, DrawdownAt, TimerAt, Rising;
      ghost var a, wall := AlarmNow(), t.wall;
      TickDrawdown(t);
      ghost var dd := Rising(old(ddActive), ddActive, Drawdown);
      TickUnhedged(t);
      ghost var un := Rising(old(unhedgedActive), unhedgedActive, Unhedged);
      TickDailyLoss(t);
      ghost var dl := Rising(old(dailyLossActive), dailyLossActive, DailyLoss);
      TickRejections(t);
      ghost var rj := Rising(old(rejActive), rejActive, Rejections);
      RaisedTwice(a, dd, un, wall);
      RaisedTwice(a, dd + un, dl, wall);
      RaisedTwice(a, dd + un + dl, rj, wall);
    }

    /** `consumed` is whatever the ring's reader has taken so far. */
    method DoTick(t: Tick, ghost consumed: seq<Trigger>)
      requires Valid()
      modifies this, outRing`head, outRing.buffer
      ensures Valid()
      ensures State(WatchNow(), AlarmNow(), outRing.Contents(), consumed) ==
              Ticked(old(State(WatchNow(), AlarmNow(), outRing.Contents(), consumed)), limits, t)
    {
      hide Watched, RisingLatches, RaisedAll, HandedOver, Published;
      CheckAll(t);
      PublishPending();
    }
  }

  // ---- The latches over whole histories ----

  datatype Op = DoTick(t: Tick) | Notify(trigger: Trigger, wall: int) | Consume

  function Did(s: State, l: Limits, op: Op): State {
    match op
    case DoTick(t) => Ticked(s, l, t)
    case Notify(trigger, wall) => s.(alarm := Raised(s.alarm, trigger, wall))
    case Consume => if s.ring == [] then s else s.(ring := s.ring[1..], consumed := s.consumed + [s.ring[0]])
  }

  function After(l: Limits, ops: seq<Op>): State {
    if ops == [] then START else Did(After(l, ops[..|ops| - 1]), l, ops[|ops| - 1])
  }

  function Ticks(ops: seq<Op>): seq<Tick> {
    if ops == [] then []
    else
      match ops[|ops| - 1]
      case DoTick(t) => Ticks(ops[..|ops| - 1]) + [t]
      case _ => Ticks(ops[..|ops| - 1])
  }

  ghost predicate InOrder(ticks: seq<Tick>) {
    forall i, j :: 0 <= i <= j < |ticks| ==> ticks[i].now <= ticks[j].now
  }

  /** The highest of zero and all sampled equities. */
  function PeakOf(ticks: seq<Tick>): real {
    if ticks == [] then 0.0
    else
      var p, e := PeakOf(ticks[..|ticks| - 1]), ticks[|ticks| - 1].equity;
      if e > p then e else p
  }

  lemma {:induction false} PeakIsMax(ticks: seq<Tick>)
    ensures PeakOf(ticks) >= 0.0
    ensures forall i :: 0 <= i < |ticks| ==> ticks[i].equity <= PeakOf(ticks)
    ensures PeakOf(ticks) == 0.0 || exists i :: 0 <= i < |ticks| && ticks[i].equity == PeakOf(ticks)
    decreases |ticks|
  {
    if ticks == [] {
    } else {
      var n := |ticks| - 1;
      PeakIsMax(ticks[..n]);
      if PeakOf(ticks) == ticks[n].equity {
      } else if PeakOf(ticks) != 0.0 {
        var i :| 0 <= i < n && ticks[..n][i].equity == PeakOf(ticks[..n]);
        assert ticks[i].equity == PeakOf(ticks);
      }
    }
  }

  /** The last equity is more than the limit, in percent of the peak, below the highest of
      zero and all equities, once that is above the floor. */
  predicate DrawdownHolds(l: Limits, ticks: seq<Tick>) {
    ticks != [] &&
    var peak, last := PeakOf(ticks), ticks[|ticks| - 1].equity;
    && peak > l.drawdownMinEquity
    && if peak > 0.0 then (peak - last) * 100.0 > l.maxDrawdownPct * peak else last < 0.0
  }

  /** More than a millionth of a contract, long or short. */
  predicate Exposed(inv: real) {
    inv > 0.000001 || inv < -0.000001
  }

  ghost predicate ExposedSince(ticks: seq<Tick>, k: int) {
    0 <= k < |ticks| && forall j :: k <= j < |ticks| ==> Exposed(ticks[j].inv)
  }

  /** Later by a whole millisecond more than the limit. */
  predicate Overdue(l: Limits, from: int, to: int) {
    to - from >= (l.maxUnhedgedSeconds * 1000 + 1) * 1_000_000
  }

  /** The ticks ending now form an unbroken non-flat run longer than the limit. */
  ghost predicate UnhedgedHolds(l: Limits, ticks: seq<Tick>) {
    exists k :: ExposedSince(ticks, k) && Overdue(l, ticks[k].now, ticks[|ticks| - 1].now)
  }

  predicate DailyLossHolds(l: Limits, ticks: seq<Tick>) {
    ticks != [] && ticks[|ticks| - 1].pnl <= -l.maxDailyLoss
  }

  predicate RejectionsHold(l: Limits, ticks: seq<Tick>) {
    ticks != [] && ticks[|ticks| - 1].rejections > l.maxRejections
  }

  ghost predicate StartsRun(ticks: seq<Tick>, k: int) {
    ExposedSince(ticks, k) && (k == 0 || !Exposed(ticks[k - 1].inv))
  }

  /** The running timer marks the start of the current non-flat run. */
  ghost predicate TimerOk(timer: Timer, ticks: seq<Tick>) {
    && (timer.started <==> ticks != [] && Exposed(ticks[|ticks| - 1].inv))
    && (timer.started ==> exists k :: StartsRun(ticks, k) && ticks[k].now == timer.at)
  }

  ghost predicate LatchesOk(l: Limits, w: Watch, ticks: seq<Tick>) {
    && InOrder(ticks)
    && w.peak == PeakOf(ticks)
    && TimerOk(w.timer, ticks)
    && (w.drawdown <==> DrawdownHolds(l, ticks))
    && (w.timer.active <==> UnhedgedHolds(l, ticks))
    && (w.dailyLoss <==> DailyLossHolds(l, ticks))
    && (w.rejections <==> RejectionsHold(l, ticks))
  }

  /** The conditions that have just become true, in the order in which they are checked. */
  ghost function Edges(l: Limits, before: seq<Tick>, now: seq<Tick>): seq<Trigger>
  {
    Rising(DrawdownHolds(l, before), DrawdownHolds(l, now), Drawdown)
    + Rising(UnhedgedHolds(l, before), UnhedgedHolds(l, now), Unhedged)
    + Rising(DailyLossHolds(l, before), DailyLossHolds(l, now), DailyLoss)
    + Rising(RejectionsHold(l, before), RejectionsHold(l, now), Rejections)
  }

  /** The code's tests, in the terms above. */
  lemma NonFlatIs(inv: real)
    ensures NonFlat(inv) <==> Exposed(inv)
  {}

  lemma OverdueIs(l: Limits, from: int, to: int)
    requires from <= to
    ensures ElapsedMs(from, to) > l.maxUnhedgedSeconds * 1000 <==> Overdue(l, from, to)
  {
    var ms := (to - from) / 1_000_000;
    assert to - from == ms * 1_000_000 + (to - from) % 1_000_000;
  }

  lemma DrawdownIs(peak: real, equity: real, limit: real)
    requires peak >= 0.0
    ensures DrawdownOver(peak, equity, limit) <==>
            if peak > 0.0 then (peak - equity) * 100.0 > limit * peak else equity < 0.0
  {
    if peak > 0.0 {
      var pct := (peak - equity) / peak * 100.0;
      assert pct * peak == (peak - equity) * 100.0;
      if pct > limit {
        assert (pct - limit) * peak > 0.0;
      } else {
        assert (pct - limit) * peak <= 0.0;
      }
    }
  }

  /** Only the longest non-flat run matters. */
  lemma LongestRun(l: Limits, ticks: seq<Tick>, k: int)
    requires InOrder(ticks) && StartsRun(ticks, k)
    ensures UnhedgedHolds(l, ticks) <==> Overdue(l, ticks[k].now, ticks[|ticks| - 1].now)
  {
    forall j | ExposedSince(ticks, j)
      ensures Overdue(l, ticks[j].now, ticks[|ticks| - 1].now) ==> Overdue(l, ticks[k].now, ticks[|ticks| - 1].now)
    {
      assert k == 0 || !Exposed(ticks[k - 1].inv);
      assert k <= j;
      assert ticks[k].now <= ticks[j].now <= ticks[|ticks| - 1].now;
    }
  }

  lemma RunGoesOn(l: Limits, ticks: seq<Tick>, t: Tick, k: int)
    requires StartsRun(ticks, k) && Exposed(t.inv) && InOrder(ticks + [t])
    ensures StartsRun(ticks + [t], k) && (ticks + [t])[k] == ticks[k] && ticks[k].now <= t.now
    ensures Overdue(l, ticks[k].now, ticks[|ticks| - 1].now) ==> Overdue(l, ticks[k].now, t.now)
  {
    var all := ticks + [t];
    assert forall j :: 0 <= j < |ticks| ==> all[j] == ticks[j];
    assert all[k].now <= all[|ticks| - 1].now <= all[|ticks|].now;
  }

  lemma NoRunNotUnhedged(l: Limits, ticks: seq<Tick>)
    requires ticks == [] || !Exposed(ticks[|ticks| - 1].inv)
    ensures !UnhedgedHolds(l, ticks)
  {}

  lemma UnhedgedStep(l: Limits, timer: Timer, ticks: seq<Tick>, t: Tick)
    requires l.maxUnhedgedSeconds >= 0
    requires TimerOk(timer, ticks) && InOrder(ticks + [t]) && InOrder(ticks)
    requires timer.active <==> UnhedgedHolds(l, ticks)
    ensures TimerOk(TimerAt(timer, l, t), ticks + [t])
    ensures TimerAt(timer, l, t).active <==> UnhedgedHolds(l, ticks + [t])
  {
    var all, n := ticks + [t], |ticks|;
    assert all[n] == t && all[..n] == ticks;
    NonFlatIs(t.inv);
    if !Exposed(t.inv) {
      NoRunNotUnhedged(l, all);
    } else if !timer.started {
      assert n == 0 || all[n - 1] == ticks[n - 1];
      assert StartsRun(all, n);
      LongestRun(l, all, n);
      NoRunNotUnhedged(l, ticks);
    } else {
      var k :| StartsRun(ticks, k) && ticks[k].now == timer.at;
      RunGoesOn(l, ticks, t, k);
      LongestRun(l, all, k);
      LongestRun(l, ticks, k);
      OverdueIs(l, timer.at, t.now);
      hide StartsRun, ExposedSince, InOrder, UnhedgedHolds, Overdue, ElapsedMs, NonFlat, Exposed;
    }
  }

  lemma DrawdownStep(l: Limits, latched: bool, ticks: seq<Tick>, t: Tick)
    requires latched <==> DrawdownHolds(l, ticks)
    ensures PeakOf(ticks + [t]) == HigherPeak(PeakOf(ticks), t.equity)
    ensures DrawdownAt(PeakOf(ticks + [t]), latched, l, t.equity) <==> DrawdownHolds(l, ticks + [t])
  {
    assert (ticks + [t])[..|ticks|] == ticks;
    PeakIsMax(ticks);
    DrawdownIs(PeakOf(ticks + [t]), t.equity, l.maxDrawdownPct);
    hide DrawdownOver;
  }

  lemma TickKeepsLatches(l: Limits, w: Watch, ticks: seq<Tick>, t: Tick)
    requires l.maxUnhedgedSeconds >= 0 && LatchesOk(l, w, ticks) && InOrder(ticks + [t])
    ensures LatchesOk(l, Watched(w, l, t), ticks + [t])
    ensures RisingLatches(w, Watched(w, l, t)) == Edges(l, ticks, ticks + [t])
  {
    hide TimerOk, UnhedgedHolds, DrawdownAt, DrawdownHolds, InOrder, TimerAt, PeakOf;
    UnhedgedStep(l, w.timer, ticks, t);
    DrawdownStep(l, w.drawdown, ticks, t);
  }

  lemma OrderPrefix(ticks: seq<Tick>, t: Tick)
    requires InOrder(ticks + [t])
    ensures InOrder(ticks)
  {
    forall i, j | 0 <= i <= j < |ticks| ensures ticks[i].now <= ticks[j].now {
      assert (ticks + [t])[i].now <= (ticks + [t])[j].now;
    }
  }

  ghost predicate AlarmOk(a: Alarm) {
    && |a.pending| <= 64
    && |a.published| + |a.pending| + a.dropped + a.refused == |a.fired|
    && (a.dropped + a.refused == 0 ==> a.published + a.pending == a.fired)
    && (a.halted <==> a.fired != [])
  }

  lemma {:induction false} RaisedAllFires(a: Alarm, ts: seq<Trigger>, wall: int)
    ensures var a' := RaisedAll(a, ts, wall);
            && a'.fired == a.fired + ts
            && a'.published == a.published
            && (AlarmOk(a) ==> AlarmOk(a'))
            && (a.halted ==> a'.halted && a'.haltedAt == a.haltedAt)
            && (!a.halted && a'.halted ==> a'.haltedAt == wall)
    decreases |ts|
  {
    if ts == [] {
    } else {
      var n := |ts| - 1;
      RaisedAllFires(a, ts[..n], wall);
      var b := RaisedAll(a, ts[..n], wall);
      assert b.published + (b.pending + [ts[n]]) == (b.published + b.pending) + [ts[n]];
      assert a.fired + ts == (a.fired + ts[..n]) + [ts[n]];
    }
  }

  /** The latches are functions of the tick history: the peak is the highest of zero and
      every sampled equity; each latch holds exactly while its condition does; and a tick
      fires exactly the conditions that have just become true, each once. */
  lemma {:induction false} LatchesFollowHistory(l: Limits, ops: seq<Op>)
    requires l.maxUnhedgedSeconds >= 0 && InOrder(Ticks(ops))
    ensures LatchesOk(l, After(l, ops).watch, Ticks(ops))
    ensures ops != [] && ops[|ops| - 1].DoTick? ==>
              InOrder(Ticks(ops[..|ops| - 1])) &&
              After(l, ops).alarm.fired ==
              After(l, ops[..|ops| - 1]).alarm.fired + Edges(l, Ticks(ops[..|ops| - 1]), Ticks(ops))
    decreases |ops|
  {
    if ops == [] {
    } else {
      var front, op := ops[..|ops| - 1], ops[|ops| - 1];
      match op
      case DoTick(t) =>
        OrderPrefix(Ticks(front), t);
        LatchesFollowHistory(l, front);
        hide LatchesOk, Watched, Edges, RisingLatches, RaisedAll;
        TickKeepsLatches(l, After(l, front).watch, Ticks(front), t);
        RaisedAllFires(After(l, front).alarm, Edges(l, Ticks(front), Ticks(ops)), t.wall);
      case _ =>
        LatchesFollowHistory(l, front);
    }
  }

  /** The limit must not be negative: below zero the condition already holds at the first
      non-flat tick, which only starts the timer. */
  lemma NegativeLimitLags(l: Limits, t: Tick)
    requires l.maxUnhedgedSeconds < 0 && Exposed(t.inv)
    ensures InOrder([t]) && Ticks([DoTick(t)]) == [t] && UnhedgedHolds(l, [t])
    ensures !After(l, [DoTick(t)]).watch.timer.active
  {
    assert [DoTick(t)][..0] == [];
    assert ExposedSince([t], 0);
    hide DrawdownAt, RaisedAll;
  }

  // ---- The halt and the queue ----

  ghost predicate QueueOk(s: State) {
    AlarmOk(s.alarm) && s.alarm.published == s.consumed + s.ring && |s.ring| <= RISK_RING_CAPACITY
  }

  function Least(m: nat, n: nat): nat {
    if m < n then m else n
  }

  /** The queue keeps the earliest 64 and counts the rest as dropped. */
  lemma {:induction false} QueueKeepsEarliest(a: Alarm, ts: seq<Trigger>, wall: int)
    requires |a.pending| <= 64
    ensures var a', room := RaisedAll(a, ts, wall), Least(|ts|, 64 - |a.pending|);
            && a'.pending == a.pending + ts[..room]
            && a'.dropped == a.dropped + (|ts| - room)
            && a'.fired == a.fired + ts
    decreases |ts|
  {
    if ts == [] {
    } else {
      var front, t := ts[..|ts| - 1], ts[|ts| - 1];
      QueueKeepsEarliest(a, front, wall);
      assert ts == front + [t];
      var room := Least(|ts|, 64 - |a.pending|);
      assert room < |ts| ==> ts[..room] == front[..room];
    }
  }

  /** The ring takes the earliest triggers it has room for and refuses the rest. */
  lemma {:induction false} RingTakesEarliest(ring: seq<Trigger>, ts: seq<Trigger>)
    requires |ring| <= 1023
    ensures var h, room := HandedOver(ring, ts), Least(|ts|, 1023 - |ring|);
            h.taken == ts[..room] && h.refused == |ts| - room && h.ring == ring + ts[..room]
    decreases |ts|
  {
    if ts == [] {
    } else {
      var front, t := ts[..|ts| - 1], ts[|ts| - 1];
      RingTakesEarliest(ring, front);
      assert ts == front + [t];
      var room := Least(|ts|, 1023 - |ring|);
      assert room < |ts| ==> ts[..room] == front[..room];
    }
  }

  lemma Regroup(a: seq<Trigger>, b: seq<Trigger>, c: seq<Trigger>)
    ensures (a + b) + c == a + (b + c)
  {}

  lemma {:induction false} HandoverCounts(ring: seq<Trigger>, ts: seq<Trigger>)
    requires |ring| <= RISK_RING_CAPACITY
    ensures var h := HandedOver(ring, ts);
            && h.ring == ring + h.taken && |h.ring| <= RISK_RING_CAPACITY
            && |h.taken| + h.refused == |ts| && (h.refused == 0 ==> h.taken == ts)
    decreases |ts|
  {
    if ts == [] {
      assert ring + [] == ring;
    } else {
      var front, t := ts[..|ts| - 1], ts[|ts| - 1];
      HandoverCounts(ring, front);
      var h := HandedOver(ring, front);
      Regroup(ring, h.taken, [t]);
      assert ts == front + [t];
    }
  }

  lemma CountsAddUp(a: Alarm, h: Handover)
    requires AlarmOk(a) && |h.taken| + h.refused == |a.pending| && (h.refused == 0 ==> h.taken == a.pending)
    ensures AlarmOk(Published(a, h))
  {
    assert (a.published + h.taken) + [] == a.published + h.taken;
  }

  lemma PublishKeepsQueue(a: Alarm, ring: seq<Trigger>, consumed: seq<Trigger>)
    requires AlarmOk(a) && a.published == consumed + ring && |ring| <= RISK_RING_CAPACITY
    ensures var h := HandedOver(ring, a.pending);
            && AlarmOk(Published(a, h))
            && Published(a, h).published == consumed + h.ring && |h.ring| <= RISK_RING_CAPACITY
  {
    HandoverCounts(ring, a.pending);
    hide HandedOver;
    var h := HandedOver(ring, a.pending);
    CountsAddUp(a, h);
    Regroup(consumed, ring, h.taken);
    hide AlarmOk;
  }

  /** The wall clock as the operation reads it. */
  function WallOf(op: Op): int {
    match op
    case DoTick(t) => t.wall
    case Notify(_, wall) => wall
    case Consume => 0
  }

  lemma OpKeepsQueue(s: State, l: Limits, op: Op)
    requires QueueOk(s)
    ensures QueueOk(Did(s, l, op))
    ensures s.alarm.halted ==> Did(s, l, op).alarm.halted && Did(s, l, op).alarm.haltedAt == s.alarm.haltedAt
    ensures !s.alarm.halted && Did(s, l, op).alarm.halted ==> Did(s, l, op).alarm.haltedAt == WallOf(op)
  {
    hide Watched, RisingLatches, RaisedAll, HandedOver;
    match op
    case DoTick(t) =>
      var ts := RisingLatches(s.watch, Watched(s.watch, l, t));
      RaisedAllFires(s.alarm, ts, t.wall);
      PublishKeepsQueue(RaisedAll(s.alarm, ts, t.wall), s.ring, s.consumed);
      hide AlarmOk;
    case Notify(trigger, wall) =>
      assert s.alarm.published + (s.alarm.pending + [trigger]) == (s.alarm.published + s.alarm.pending) + [trigger];
    case Consume =>
      if s.ring != [] {
        assert s.consumed + s.ring == (s.consumed + [s.ring[0]]) + s.ring[1..];
      }
  }

  lemma {:induction false} QueueStaysOk(l: Limits, ops: seq<Op>)
    ensures QueueOk(After(l, ops))
    decreases |ops|
  {
    if ops == [] {
    } else {
      hide Did, QueueOk;
      QueueStaysOk(l, ops[..|ops| - 1]);
      OpKeepsQueue(After(l, ops[..|ops| - 1]), l, ops[|ops| - 1]);
    }
  }

  lemma {:induction false} HaltStays(l: Limits, ops: seq<Op>, k: nat)
    requires k <= |ops| && After(l, ops[..k]).alarm.halted
    ensures After(l, ops).alarm.halted && After(l, ops).alarm.haltedAt == After(l, ops[..k]).alarm.haltedAt
    decreases |ops|
  {
    if k == |ops| {
      assert ops[..k] == ops;
    } else {
      hide Did, QueueOk;
      var n := |ops| - 1;
      assert ops[..n][..k] == ops[..k];
      HaltStays(l, ops[..n], k);
      QueueStaysOk(l, ops[..n]);
      OpKeepsQueue(After(l, ops[..n]), l, ops[n]);
      assert After(l, ops) == Did(After(l, ops[..n]), l, ops[n]);
      hide After;
    }
  }

  lemma FirstHaltTime(l: Limits, ops: seq<Op>, k: nat)
    requires k < |ops| && !After(l, ops[..k]).alarm.halted && After(l, ops[..k + 1]).alarm.halted
    ensures After(l, ops[..k + 1]).alarm.haltedAt == WallOf(ops[k])
  {
    hide Did, QueueOk, WallOf;
    assert ops[..k + 1][..k] == ops[..k];
    QueueStaysOk(l, ops[..k]);
    OpKeepsQueue(After(l, ops[..k]), l, ops[k]);
  }

  /** The breaker is halted exactly once anything has fired; nothing clears the halt, and its
      recorded time is that of the operation that first fired; whatever fired is handed to
      the ring in order, still pending, or counted as dropped at a full queue or refused by a
      full ring; and the ring's reader gets what was handed over, in order. */
  lemma HaltedOnceFired(l: Limits, ops: seq<Op>, k: nat)
    requires k <= |ops|
    ensures QueueOk(After(l, ops))
    ensures After(l, ops[..k]).alarm.halted ==>
              After(l, ops).alarm.halted && After(l, ops).alarm.haltedAt == After(l, ops[..k]).alarm.haltedAt
    ensures k < |ops| && !After(l, ops[..k]).alarm.halted && After(l, ops[..k + 1]).alarm.halted ==>
              After(l, ops).alarm.haltedAt == WallOf(ops[k])
  {
    QueueStaysOk(l, ops);
    hide After, QueueOk, WallOf;
    if After(l, ops[..k]).alarm.halted {
      HaltStays(l, ops, k);
    } else if k < |ops| && After(l, ops[..k + 1]).alarm.halted {
      FirstHaltTime(l, ops, k);
      HaltStays(l, ops, k + 1);
    }
  }
}
