/** The market maker's requote gate, and how closely resting orders follow it when quotes
    travel through the ring to the order manager. Times are nanoseconds. */
module MarketMaking {
  import Breaker
  import opened Fills
  import opened Orders
  import opened Risk
  import Ring = SpscRing
  import PT = PositionTracking

  datatype Tier = T0 | T1 | T2 | T3
  datatype Regime = Low | Mid | High

  datatype Config = Config(minTick: real, moveTicks: int, minRequoteMs: int, lifetimeMs: int, quoteQty: real,
                           maxInventory: real, baselineVol: real, volMult: real, gamma: real, horizon: real)

  datatype Signals = Signals(valid: bool, mid: real, sigmaSq: real, realizedVol: real)

  /** What one evaluation reads besides the signals: the inventory, its skew, and the spread
      model's final spread. */
  datatype Inputs = Inputs(inv: real, skewBps: real, delta: real, now: int)

  datatype Quote = Quote(bid: real, ask: real, qty: real)

  datatype Maker = Maker(last: Quote, lastValid: bool, lastEmit: int, lastTier: Tier, lastRegime: Regime)

  const FRESH := Maker(Quote(0.0, 0.0, 0.0), false, 0, T0, Low)

  function Thresh(c: Config): real {
    c.moveTicks as real * c.minTick
  }

  function ClassifyInventory(c: Config, inv: real): Tier {
    if c.maxInventory <= 0.0 then T0
    else
      var r := Abs(inv) / c.maxInventory;
      if r < 0.25 then T0 else if r < 0.50 then T1 else if r < 0.75 then T2 else T3
  }

  function ClassifyVol(c: Config, rv: real): Regime {
    if rv < c.baselineVol then Low else if rv < c.baselineVol * c.volMult then Mid else High
  }

  function Max(a: real, b: real): real {
    if a < b then b else a
  }

  function Move(a: Quote, b: Quote): real {
    Max(Abs(a.bid - b.bid), Abs(a.ask - b.ask))
  }

  predicate ShouldRequote(m: Maker, c: Config, q: Quote, tier: Tier, regime: Regime, now: int) {
    !m.lastValid
    || (var move, age := Move(q, m.last), Breaker.ElapsedMs(m.lastEmit, now);
        && (move > Thresh(c) * 2.0 || age >= c.minRequoteMs)
        && (move >= Thresh(c) || tier != m.lastTier || regime != m.lastRegime || age > c.lifetimeMs))
  }

  /** Reservation price, half the spread to each side, shifted against the inventory. */
  function Priced(c: Config, s: Signals, x: Inputs): Quote {
    var r := s.mid - x.inv * c.gamma * s.sigmaSq * c.horizon;
    var shift := s.mid * (x.skewBps / 10000.0);
    Quote(r - x.delta / 2.0 - shift, r + x.delta / 2.0 - shift, c.quoteQty)
  }

  /** Both sides of the quote, put to the pre-trade gate one after the other. */
  function BothChecked(rs: RiskState, l: Limits, t: PT.Tracker, q: Quote, mid: real, times: (int, int))
    : (bool, RiskState)
  {
    var (buy, rs1) := Checked(rs, l, t, q.qty, q.bid, mid, times.0);
    var (sell, rs2) := Checked(rs1, l, t, -q.qty, q.ask, mid, times.1);
    (buy == Approved && sell == Approved, rs2)
  }

  /** The gate passes a quote exactly when a buy at its bid and a sell at its ask, each of the
      whole quantity, both keep every limit. */
  lemma BothCheckedIs(rs: RiskState, l: Limits, t: PT.Tracker, q: Quote, mid: real, times: (int, int))
    ensures BothChecked(rs, l, t, q, mid, times).0 <==>
            && -l.maxPosition <= t.inv + q.qty <= l.maxPosition
            && -l.maxPosition <= t.inv - q.qty <= l.maxPosition
            && -l.maxOrderSize <= q.qty <= l.maxOrderSize
            && (mid > 0.0 ==> InBand(q.bid, mid, l.priceSanityPct) && InBand(q.ask, mid, l.priceSanityPct))
            && |Pruned(rs.orderTimes, times.0 - 60_000)| <= l.rateThreshold
            && |Pruned(Pruned(rs.orderTimes, times.0 - 60_000), times.1 - 60_000)| <= l.rateThreshold
            && -l.maxDailyLoss <= PT.Equity(t)
            && rs.openOrders < l.maxOpenOrders
  {
    var rs1 := Checked(rs, l, t, q.qty, q.bid, mid, times.0).1;
    ApprovedExactly(rs, l, t, q.qty, q.bid, mid, times.0);
    ApprovedExactly(rs1, l, t, -q.qty, q.ask, mid, times.1);
    CheckLeaves(rs, l, t, q.qty, q.bid, mid, times.0);
    hide Checked, Pruned, InBand, PT.Equity;
  }

  /** `allowed` says that the breaker is not halted and the gate, if any, passed both sides. */
  predicate Emits(m: Maker, c: Config, s: Signals, x: Inputs, allowed: bool) {
    s.valid && s.mid > 0.0 && allowed
    && ShouldRequote(m, c, Priced(c, s, x), ClassifyInventory(c, x.inv), ClassifyVol(c, s.realizedVol), x.now)
  }

  function Emitted(m: Maker, c: Config, s: Signals, x: Inputs): Maker {
    Maker(Priced(c, s, x), true, x.now, ClassifyInventory(c, x.inv), ClassifyVol(c, s.realizedVol))
  }

  class MarketMaker {
    const config: Config
    const outRing: Ring.Ring<Quote>
    var lastQuote: Quote
    var lastValid: bool
    var lastEmit: int
    var lastTier: Tier
    var lastRegime: Regime
    var risk: RiskManager?
    var breaker: Breaker.CircuitBreaker?

    function Now(): Maker
      reads this
    {
      Maker(lastQuote, lastValid, lastEmit, lastTier, lastRegime)
    }

    constructor (config: Config, outRing: Ring.Ring<Quote>)
      ensures this.config == config && this.outRing == outRing && Now() == FRESH
    {
      this.config, this.outRing := config, outRing;
      lastQuote, lastValid, lastEmit, lastTier, lastRegime := Quote(0.0, 0.0, 0.0), false, 0, T0, Low;
      risk, breaker := null, null;
    }

    method SetRisk(risk: RiskManager?, breaker: Breaker.CircuitBreaker?)
      modifies `risk, `breaker
      ensures this.risk == risk && this.breaker == breaker
    {
      this.risk, this.breaker := risk, breaker;
    }

    /** Without a gate everything passes. */
    method PassGate(q: Quote, mid: real, times: (int, int)) returns (passed: bool)
      modifies risk
      ensures risk == null ==> passed
      ensures risk != null ==>
                (passed, risk.State()) == BothChecked(old(risk.State()), risk.limits, risk.pt.State(), q, mid, times)
    {
      if risk == null {
        return true;
      }
      hide Checked;
      var buy := risk.PreTradeCheck(q.qty, q.bid, mid, times.0);
      var sell := risk.PreTradeCheck(-q.qty, q.ask, mid, times.1);
      passed := buy == Approved && sell == Approved;
    }

    method DecideRequote(q: Quote, tier: Tier, regime: Regime, now: int) returns (yes: bool)
      ensures yes == ShouldRequote(Now(), config, q, tier, regime, now)
    {
      hide Abs, Max, Breaker.ElapsedMs;
      if !lastValid {
        return true;
      }
      var thresh := config.moveTicks as real * config.minTick;
      var bidMove, askMove := Abs(q.bid - lastQuote.bid), Abs(q.ask - lastQuote.ask);
      var maxMove := Max(bidMove, askMove);
      var ageMs := Breaker.ElapsedMs(lastEmit, now);
      var force := maxMove > thresh * 2.0;
      if !force && ageMs < config.minRequoteMs {
        return false;
      }
      yes := maxMove >= thresh || tier != lastTier || regime != lastRegime || ageMs > config.lifetimeMs;
    }

    /** A quote that the ring has no room for still counts as the last quote. */
    method EmitQuote(q: Quote, now: int) returns (sent: bool)
      requires outRing.Valid()
      modifies `lastQuote, `lastValid, `lastEmit, outRing`head, outRing.buffer
      ensures outRing.Valid()
      ensures (sent, outRing.Contents()) == Ring.Offer(old(outRing.Contents()), outRing.buffer.Length - 1, q)
      ensures lastQuote == q && lastValid && lastEmit == now
    {
      sent := outRing.Push(q);
      lastQuote, lastValid, lastEmit := q, true, now;
    }

    predicate Halted()
      reads this, breaker
    {
      breaker != null && breaker.halted
    }

    /** `times` are the gate's own readings of its clock. */
    method OnSignals(s: Signals, x: Inputs, times: (int, int)) returns (emitted: bool, ghost allowed: bool)
      requires outRing.Valid()
      modifies this, risk, outRing`head, outRing.buffer
      ensures outRing.Valid() && risk == old(risk) && breaker == old(breaker)
      ensures old(Halted()) ==> !allowed
      ensures !old(Halted()) && risk == null ==> allowed
      ensures !old(Halted()) && risk != null && s.valid && s.mid > 0.0 ==>
                (allowed, risk.State()) ==
                BothChecked(old(risk.State()), risk.limits, risk.pt.State(), Priced(config, s, x), s.mid, times)
      ensures risk != null && (old(Halted()) || !s.valid || s.mid <= 0.0) ==> risk.State() == old(risk.State())
      ensures emitted == Emits(old(Now()), config, s, x, allowed)
      ensures Now() == if emitted then Emitted(old(Now()), config, s, x) else old(Now())
      ensures outRing.Contents() ==
              if emitted then Ring.Offer(old(outRing.Contents()), outRing.buffer.Length - 1, Priced(config, s, x)).1
              else old(outRing.Contents())
    {
      hide Thresh, ShouldRequote, Priced, ClassifyInventory, ClassifyVol, BothChecked;
      allowed := !Halted();
      if !s.valid || s.mid <= 0.0 {
        return false, allowed;
      }
      var q := Priced(config, s, x);
      var tier, regime := ClassifyInventory(config, x.inv), ClassifyVol(config, s.realizedVol);
      if Halted() {
        return false, allowed;
      }
      var passed := PassGate(q, s.mid, times);
      allowed := passed;
      if !passed {
        return false, allowed;
      }
      var yes := DecideRequote(q, tier, regime, x.now);
      if !yes {
        return false, allowed;
      }
      var _ := EmitQuote(q, x.now);
      lastTier, lastRegime := tier, regime;
      emitted := true;
    }
  }

  // ---- Prices and classes ----

  /** The quote is `delta` wide about a centre that leans away from the inventory. */
  lemma PricedShape(c: Config, s: Signals, x: Inputs)
    ensures var q := Priced(c, s, x);
            && q.ask - q.bid == x.delta && (q.bid < q.ask <==> x.delta > 0.0) && q.qty == c.quoteQty
            && (q.bid + q.ask) / 2.0 == s.mid - x.inv * c.gamma * s.sigmaSq * c.horizon - s.mid * x.skewBps / 10000.0
  {
    assert s.mid * (x.skewBps / 10000.0) == s.mid * x.skewBps / 10000.0;
  }

  /** With risk aversion and variance, a longer inventory quotes lower on both sides. */
  lemma LongerQuotesLower(c: Config, s: Signals, x: Inputs, y: Inputs)
    requires c.gamma * s.sigmaSq * c.horizon > 0.0 && s.mid > 0.0
    requires x.inv < y.inv && x.skewBps <= y.skewBps && x.delta == y.delta
    ensures Priced(c, s, y).bid < Priced(c, s, x).bid && Priced(c, s, y).ask < Priced(c, s, x).ask
  {
    var g := c.gamma * s.sigmaSq * c.horizon;
    assert (y.inv - x.inv) * g > 0.0;
    assert x.inv * c.gamma * s.sigmaSq * c.horizon == x.inv * g;
    assert y.inv * c.gamma * s.sigmaSq * c.horizon == y.inv * g;
    assert s.mid * (y.skewBps / 10000.0 - x.skewBps / 10000.0) >= 0.0;
  }

  lemma QuarterIs(size: real, max: real, r: real, k: real)
    requires max > 0.0 && r == size / max
    ensures 4.0 * r < k <==> 4.0 * size < k * max
  {
    assert r * max == size;
    var d := k - 4.0 * r;
    assert d * max == k * max - 4.0 * size;
    if d > 0.0 {
      assert d * max > 0.0;
    } else {
      assert d * max <= 0.0;
    }
  }

  /** The tiers are the quarters of the largest inventory, long or short. */
  lemma TierIs(c: Config, inv: real)
    ensures var t, size := ClassifyInventory(c, inv), if inv < 0.0 then -inv else inv;
            && (c.maxInventory <= 0.0 ==> t == T0)
            && (c.maxInventory > 0.0 ==>
                  && (t == T0 <==> 4.0 * size < c.maxInventory)
                  && (t == T1 <==> c.maxInventory <= 4.0 * size < 2.0 * c.maxInventory)
                  && (t == T2 <==> 2.0 * c.maxInventory <= 4.0 * size < 3.0 * c.maxInventory)
                  && (t == T3 <==> 3.0 * c.maxInventory <= 4.0 * size))
  {
    if c.maxInventory > 0.0 {
      var r := Abs(inv) / c.maxInventory;
      QuarterIs(Abs(inv), c.maxInventory, r, 1.0);
      QuarterIs(Abs(inv), c.maxInventory, r, 2.0);
      QuarterIs(Abs(inv), c.maxInventory, r, 3.0);
    }
  }

  /** Volatility below the baseline, up to its multiple, and from there on. */
  lemma RegimeIs(c: Config, rv: real)
    ensures var r := ClassifyVol(c, rv);
            && (r == Low <==> rv < c.baselineVol)
            && (r == Mid <==> c.baselineVol <= rv < c.baselineVol * c.volMult)
            && (r == High <==> rv >= c.baselineVol && rv >= c.baselineVol * c.volMult)
  {
    var product := c.baselineVol * c.volMult;
  }

  // ---- The gate ----

  /** Nanoseconds apart less than so many whole milliseconds. */
  predicate Sooner(from: int, to: int, ms: int) {
    if ms >= 1 then to - from < ms * 1_000_000 else to - from <= (ms - 1) * 1_000_000
  }

  lemma SoonerIs(from: int, to: int, ms: int)
    ensures Breaker.ElapsedMs(from, to) < ms <==> Sooner(from, to, ms)
  {
    if from <= to {
      assert to - from == (to - from) / 1_000_000 * 1_000_000 + (to - from) % 1_000_000;
    } else {
      assert from - to == (from - to) / 1_000_000 * 1_000_000 + (from - to) % 1_000_000;
    }
  }

  /** The gate declines exactly when the quote is within two thresholds and it is too soon,
      or nothing has changed: within one threshold, in the same tier and regime, and the last
      quote still young enough. */
  lemma GateDeclines(m: Maker, c: Config, q: Quote, tier: Tier, regime: Regime, now: int)
    ensures var thresh := c.moveTicks as real * c.minTick;
            var bidMove, askMove := Abs(q.bid - m.last.bid), Abs(q.ask - m.last.ask);
            !ShouldRequote(m, c, q, tier, regime, now) <==>
              && m.lastValid
              && (|| (bidMove <= 2.0 * thresh && askMove <= 2.0 * thresh && Sooner(m.lastEmit, now, c.minRequoteMs))
                  || (bidMove < thresh && askMove < thresh && tier == m.lastTier && regime == m.lastRegime
                      && Sooner(m.lastEmit, now, c.lifetimeMs + 1)))
  {
    SoonerIs(m.lastEmit, now, c.minRequoteMs);
    SoonerIs(m.lastEmit, now, c.lifetimeMs + 1);
    hide Breaker.ElapsedMs, Sooner, Abs;
  }

  /** Declining means that the fresh quote is near the last one. */
  lemma DecliningIsNear(m: Maker, c: Config, q: Quote, tier: Tier, regime: Regime, now: int)
    requires !ShouldRequote(m, c, q, tier, regime, now)
    ensures m.lastValid && Move(q, m.last) <= 2.0 * Thresh(c) && Thresh(c) >= 0.0
  {
    assert Move(q, m.last) >= 0.0;
    hide Thresh, Move;
  }

  // ---- Quotes on their way to the order manager ----

  /** `lost` counts quotes that met a full ring. */
  datatype World = World(maker: Maker, ring: seq<Quote>, lost: nat, om: Om, emits: seq<(Quote, int)>)

  const QUOTE_CAPACITY := 16383
  const QUIET_WORLD := World(FRESH, [], 0, Orders.START, [])

  /** One side of an accepted requote: the cancel is confirmed and the placement
      acknowledged under the id `oid`. */
  function Requoted(om: Om, i: int, price: real, qty: real, thresh: real, now: int, oid: int): (om': Om)
    requires Index(om, i)
    ensures |om'.slots| == 2
  {
    var (om1, d) := Begun(om, i, price, thresh);
    match d
    case Keep => om1
    case CancelFirst => AckReceived(Prepared(CancelConfirmed(om1, i), i, price, qty, now), i, oid)
    case PlaceNow => AckReceived(Prepared(om1, i, price, qty, now), i, oid)
  }

  function Delivered(om: Om, q: Quote, thresh: real, now: int, oids: (int, int)): (om': Om)
    requires |om.slots| == 2
    ensures |om'.slots| == 2
  {
    Requoted(Requoted(om, BID, q.bid, q.qty, thresh, now, oids.0), ASK, q.ask, q.qty, thresh, now, oids.1)
  }

  datatype Op =
    | Evaluate(s: Signals, x: Inputs, allowed: bool)
    | Deliver(now: int, oids: (int, int))
    | FillIn(f: Fill)

  function Did(w: World, c: Config, op: Op): (w': World)
    requires |w.om.slots| == 2
    ensures |w'.om.slots| == 2
  {
    match op
    case Evaluate(s, x, allowed) =>
      if Emits(w.maker, c, s, x, allowed) then
        var q := Priced(c, s, x);
        var (sent, ring) := Ring.Offer(w.ring, QUOTE_CAPACITY, q);
        World(Emitted(w.maker, c, s, x), ring, if sent then w.lost else w.lost + 1, w.om, w.emits + [(q, x.now)])
      else w
    case Deliver(now, oids) =>
      if w.ring == [] then w
      else w.(ring := w.ring[1..], om := Delivered(w.om, w.ring[0], Thresh(c), now, oids))
    case FillIn(f) => w.(om := FillNoted(w.om, f))
  }

  function After(c: Config, ops: seq<Op>): (w: World)
    ensures |w.om.slots| == 2
  {
    if ops == [] then QUIET_WORLD else Did(After(c, ops[..|ops| - 1]), c, ops[|ops| - 1])
  }

  predicate Near(om: Om, i: int, price: real, thresh: real)
    requires Index(om, i)
  {
    Live(om.slots[i]) ==> Abs(om.slots[i].price - price) <= Max(thresh, 0.0)
  }

  predicate NearQuote(om: Om, q: Quote, thresh: real)
    requires |om.slots| == 2
  {
    Near(om, BID, q.bid, thresh) && Near(om, ASK, q.ask, thresh)
  }

  /** Once every quote has arrived, resting orders are near the last one. */
  ghost predicate Tracking(w: World, c: Config)
    requires |w.om.slots| == 2
  {
    && (!w.maker.lastValid ==> w.ring == [] && !Live(w.om.slots[BID]) && !Live(w.om.slots[ASK]))
    && (w.ring != [] ==> w.ring[|w.ring| - 1] == w.maker.last)
    && (w.maker.lastValid && w.ring == [] ==> NearQuote(w.om, w.maker.last, Thresh(c)))
  }

  lemma RequotedIsNear(om: Om, i: int, price: real, qty: real, thresh: real, now: int, oid: int)
    requires Index(om, i)
    ensures Near(Requoted(om, i, price, qty, thresh, now, oid), i, price, thresh)
    ensures Requoted(om, i, price, qty, thresh, now, oid).slots[1 - i] == om.slots[1 - i]
  {
    var (om1, d) := Begun(om, i, price, thresh);
    var gone := CancelConfirmed(om1, i);
    assert gone.slots[1 - i] == om.slots[1 - i] && Index(gone, i);
    PreparedSlot(gone, i, price, qty, now);
    PreparedSlot(om1, i, price, qty, now);
    hide Prepared, AckReceived, CancelConfirmed;
  }

  lemma FillKeepsPrices(om: Om, f: Fill, i: int)
    requires Index(om, i)
    ensures |FillNoted(om, f).slots| == 2
    ensures FillNoted(om, f).slots[i].price == om.slots[i].price
    ensures Live(FillNoted(om, f).slots[i]) ==> Live(om.slots[i])
  {}

  lemma OpKeepsTracking(w: World, c: Config, op: Op)
    requires |w.om.slots| == 2 && Tracking(w, c) && Did(w, c, op).lost == 0
    ensures Tracking(Did(w, c, op), c)
  {
    hide Thresh, Requoted, FillNoted, Priced, Emits;
    match op
    case Evaluate(s, x, allowed) =>
    case Deliver(now, oids) =>
      if w.ring != [] {
        var q := w.ring[0];
        RequotedIsNear(w.om, BID, q.bid, q.qty, Thresh(c), now, oids.0);
        var om := Requoted(w.om, BID, q.bid, q.qty, Thresh(c), now, oids.0);
        RequotedIsNear(om, ASK, q.ask, q.qty, Thresh(c), now, oids.1);
      }
    case FillIn(f) =>
      FillKeepsPrices(w.om, f, BID);
      FillKeepsPrices(w.om, f, ASK);
  }

  lemma LostOnlyGrows(w: World, c: Config, op: Op)
    requires |w.om.slots| == 2
    ensures Did(w, c, op).lost >= w.lost
  {
    hide Emits, Delivered, FillNoted, Emitted, Priced;
  }

  lemma {:induction false} RunKeepsTracking(c: Config, ops: seq<Op>)
    requires After(c, ops).lost == 0
    ensures Tracking(After(c, ops), c)
    decreases |ops|
  {
    if ops == [] {
    } else {
      hide Did, Tracking;
      LostOnlyGrows(After(c, ops[..|ops| - 1]), c, ops[|ops| - 1]);
      RunKeepsTracking(c, ops[..|ops| - 1]);
      OpKeepsTracking(After(c, ops[..|ops| - 1]), c, ops[|ops| - 1]);
    }
  }

  lemma NearFresh(om: Om, i: int, last: real, next: real, thresh: real)
    requires Index(om, i) && thresh >= 0.0
    requires Near(om, i, last, thresh) && Abs(next - last) <= 2.0 * thresh
    ensures Live(om.slots[i]) ==> Abs(om.slots[i].price - next) <= 3.0 * thresh
  {}

  predicate Follows(om: Om, q: Quote, distance: real)
    requires |om.slots| == 2
  {
    && (Live(om.slots[BID]) ==> Abs(om.slots[BID].price - q.bid) <= distance)
    && (Live(om.slots[ASK]) ==> Abs(om.slots[ASK].price - q.ask) <= distance)
  }

  lemma NearBoth(om: Om, last: Quote, q: Quote, thresh: real)
    requires |om.slots| == 2 && thresh >= 0.0
    requires NearQuote(om, last, thresh) && Move(q, last) <= 2.0 * thresh
    ensures Follows(om, q, 3.0 * thresh)
  {
    NearFresh(om, BID, last.bid, q.bid, thresh);
    NearFresh(om, ASK, last.ask, q.ask, thresh);
    hide Live, Near;
  }

  lemma DeclinedIsFollowed(c: Config, w: World, q: Quote, tier: Tier, regime: Regime, now: int)
    requires |w.om.slots| == 2 && Tracking(w, c)
    requires w.ring == [] && !ShouldRequote(w.maker, c, q, tier, regime, now)
    ensures Follows(w.om, q, 3.0 * (c.moveTicks as real * c.minTick))
  {
    DecliningIsNear(w.maker, c, q, tier, regime, now);
    assert Thresh(c) == c.moveTicks as real * c.minTick;
    hide Thresh, ShouldRequote, NearQuote, Follows, Live, Move;
    NearBoth(w.om, w.maker.last, q, Thresh(c));
  }

  /** In every run in which no quote was lost and all have arrived: whenever the gate
      declines a fresh quote, each resting order is within three thresholds of it. */
  lemma OrdersTrackQuotes(c: Config, ops: seq<Op>, q: Quote, tier: Tier, regime: Regime, now: int)
    requires var w := After(c, ops);
             w.lost == 0 && w.ring == [] && !ShouldRequote(w.maker, c, q, tier, regime, now)
    ensures Follows(After(c, ops).om, q, 3.0 * (c.moveTicks as real * c.minTick))
  {
    RunKeepsTracking(c, ops);
    hide After, ShouldRequote, Follows, Tracking;
    DeclinedIsFollowed(c, After(c, ops), q, tier, regime, now);
  }

  // ---- Emits close together ----

  /** Closer in time than the minimum only with a side more than two thresholds away. */
  predicate SpacedOut(a: (Quote, int), b: (Quote, int), c: Config) {
    var far := 2.0 * (c.moveTicks as real * c.minTick);
    Sooner(a.1, b.1, c.minRequoteMs) ==> Abs(b.0.bid - a.0.bid) > far || Abs(b.0.ask - a.0.ask) > far
  }

  ghost predicate EmitsOk(w: World, c: Config) {
    && (w.maker.lastValid <==> w.emits != [])
    && (w.emits != [] ==> w.emits[|w.emits| - 1] == (w.maker.last, w.maker.lastEmit))
    && forall i :: 0 < i < |w.emits| ==> SpacedOut(w.emits[i - 1], w.emits[i], c)
  }

  lemma EmitIsSpaced(m: Maker, c: Config, q: Quote, tier: Tier, regime: Regime, now: int)
    requires m.lastValid && ShouldRequote(m, c, q, tier, regime, now)
    ensures SpacedOut((m.last, m.lastEmit), (q, now), c)
  {
    GateDeclines(m, c, q, tier, regime, now);
    hide ShouldRequote, Sooner, Abs;
  }

  lemma OpKeepsEmits(w: World, c: Config, op: Op)
    requires |w.om.slots| == 2 && EmitsOk(w, c)
    ensures EmitsOk(Did(w, c, op), c)
  {
    hide Thresh, Delivered, FillNoted, Priced, Move, ShouldRequote, SpacedOut, ClassifyInventory, ClassifyVol;
    if op.Evaluate? && Emits(w.maker, c, op.s, op.x, op.allowed) && w.emits != [] {
      EmitIsSpaced(w.maker, c, Priced(c, op.s, op.x), ClassifyInventory(c, op.x.inv),
        ClassifyVol(c, op.s.realizedVol), op.x.now);
      assert SpacedOut((w.maker.last, w.maker.lastEmit), (Priced(c, op.s, op.x), op.x.now), c);
    }
  }

  /** Two emits in a row that are closer in time than the minimum are more than two
      thresholds apart in price. */
  lemma {:induction false} FastEmitsMoveFar(c: Config, ops: seq<Op>)
    ensures EmitsOk(After(c, ops), c)
    decreases |ops|
  {
    if ops == [] {
    } else {
      hide Did, EmitsOk;
      FastEmitsMoveFar(c, ops[..|ops| - 1]);
      OpKeepsEmits(After(c, ops[..|ops| - 1]), c, ops[|ops| - 1]);
    }
  }
}
