/** The backtest driver: the engine's objects wired together as one closed loop. */
module BacktestRunner {
  import opened Fills
  import opened Orders
  import opened PositionTracking
  import opened Risk
  import opened BacktestLoop
  import Sim = Simulator

  /** The order in which the hash table of resting orders is walked. */
  ghost predicate IsWalk(walk: set<int> -> seq<int>) {
    forall keys: set<int> :: multiset(walk(keys)) == multiset(keys)
  }

  lemma KeepChangesNothing(om: Om, i: int, price: real, thresh: real)
    requires Index(om, i)
    ensures !Begun(om, i, price, thresh).1.PlaceNow? ==> Begun(om, i, price, thresh).0 == om
  {}

  class BacktestRunner {
    const config: Config
    const walk: set<int> -> seq<int>
    const pt: PositionTracker
    const rm: RiskManager
    const sim: Sim.SimulatedRestClient
    const om: OrderManager
    var halted: bool
    var fills: seq<Fill>

    ghost predicate Valid()
      reads this, om, om.slots, om.fillRing
    {
      om.Valid() && IsWalk(walk) && rm.pt == pt && rm.limits == config.limits
    }

    function State(): (l: Loop)
      reads this, pt, rm, sim, om, om.slots
      ensures |l.om.slots| == om.slots.Length
    {
      Loop(om.State(), sim.State(), pt.State(), rm.State(), halted, fills)
    }

    constructor (config: Config, walk: set<int> -> seq<int>)
      requires IsWalk(walk)
      ensures Valid() && State() == INITIAL && this.config == config
      ensures fresh(pt) && fresh(rm) && fresh(sim) && fresh(om) && fresh(om.slots)
    {
      this.config, this.walk := config, walk;
      var tracker := new PositionTracker();
      pt := tracker;
      rm := new RiskManager(config.limits, tracker);
      sim := new Sim.SimulatedRestClient();
      om := new OrderManager();
      halted, fills := false, [];
    }

    /** The fill callback: straight into the tracker, in order. */
    method Feed(newFills: seq<Fill>)
      modifies this`fills, pt
      ensures pt.State() == AppliedAll(old(pt.State()), newFills)
      ensures fills == old(fills) + newFills
    {
      for i := 0 to |newFills|
        modifies pt
        invariant pt.State() == AppliedAll(old(pt.State()), newFills[..i])
      {
        assert newFills[..i + 1][..i] == newFills[..i];
        var ok := pt.ApplyFill(newFills[i]);
      }
      assert newFills[..|newFills|] == newFills;
      fills := fills + newFills;
    }

    /** `place_order`, its immediate fills, and the acknowledgement. */
    method SendOrder(i: int, price: real, qty: real) returns (order: seq<int>)
      requires Valid() && 0 <= i < 2
      modifies this`fills, pt, sim, om, om.slots
      ensures Valid()
      ensures var l := old(State());
              var (simAfter, newFills) := Sim.Placed(l.sim, SideOf(i), qty, price, l.om.slots[i].cid, order);
              State() == Fed(l.(om := AckReceived(l.om, i, l.sim.oidSeq + 1)), simAfter, newFills)
    {
      hide AckReceived, Sim.Placed, AppliedAll;
      var cid := om.slots[i].cid;
      order := walk(sim.pending.Keys + {cid});
      var ack, newFills := sim.PlaceOrder(SideOf(i), qty, price, cid, order);
      Feed(newFills);
      om.ReceiveAck(i, ack.oid);
    }

    method PlaceNew(i: int, price: real, qty: real, now: int) returns (order: seq<int>)
      requires Valid() && 0 <= i < 2
      modifies this`fills, pt, rm, sim, om, om.slots
      ensures Valid() && State() == PlacedNew(old(State()), config, i, price, qty, now, order)
    {
      hide Checked, Prepared, TurnedDown, AckReceived, Sim.Placed, Fed;
      order := [];
      om.PrepareOrder(i, price, qty, now);
      if halted {
        om.TurnDown(i);
        return;
      }
      rm.SetOpenOrderCount(om.openOrders);
      var signedQty := SignedQty(i, qty);
      var verdict := rm.PreTradeCheck(signedQty, price, pt.lastMid, now);
      if verdict != Approved {
        om.TurnDown(i);
        return;
      }
      rm.RecordSubmission(now);
      order := SendOrder(i, price, qty);
    }

    /** The simulator confirms the first attempt. */
    method CancelSlot(i: int, now: int)
      requires Valid() && 0 <= i < 2
      modifies rm, sim, om, om.slots
      ensures Valid() && State() == CancelledSlot(old(State()), i, now)
    {
      rm.RecordCancel(now);
      var ok := sim.CancelOrder(om.slots[i].cid);
      om.ConfirmCancel(i);
    }

    method MaybeRequoteSide(i: int, price: real, qty: real, now: int) returns (order: seq<int>)
      requires Valid() && 0 <= i < 2
      modifies this`fills, pt, rm, sim, om, om.slots
      ensures Valid() && State() == Requoted(old(State()), config, i, price, qty, now, order)
    {
      hide PlacedNew, CancelledSlot, Begun;
      order := [];
      var d := om.BeginSide(i, price, config.thresh);
      if d == Keep {
        KeepChangesNothing(old(om.State()), i, price, config.thresh);
        return;
      }
      if d == CancelFirst {
        KeepChangesNothing(old(om.State()), i, price, config.thresh);
        CancelSlot(i, now);
      }
      order := PlaceNew(i, price, qty, now);
    }

    method OnQuote(q: Quote, now: int) returns (orders: (seq<int>, seq<int>))
      requires Valid()
      modifies this`fills, pt, rm, sim, om, om.slots
      ensures Valid() && State() == BacktestLoop.OnQuote(old(State()), config, q, now, orders)
    {
      hide Requoted;
      if halted {
        return ([], []);
      }
      var bids := MaybeRequoteSide(BID, q.bid, q.qty, now);
      var asks := MaybeRequoteSide(ASK, q.ask, q.qty, now);
      orders := (bids, asks);
    }

    /** One archive record reaches the simulator and the tracker. An absent depth counts as
        a thousandth. */
    method OnRecord(bid: real, ask: real, bidQty: real, askQty: real) returns (order: seq<int>, book: Sim.Book)
      requires Valid()
      modifies this`fills, pt, sim
      ensures book == Sim.Book(bid, ask, if bidQty <= 0.0 then 0.001 else bidQty,
                               if askQty <= 0.0 then 0.001 else askQty, 0)
      ensures Valid() && State() == OnMarket(old(State()), book, order)
    {
      hide Sim.MarketMoved, AppliedAll;
      book := Sim.Book(bid, ask, if bidQty <= 0.0 then 0.001 else bidQty,
                       if askQty <= 0.0 then 0.001 else askQty, 0);
      order := walk(sim.pending.Keys);
      var newFills := sim.UpdateMarket(book, order);
      Feed(newFills);
      pt.UpdateMid((bid + ask) * 0.5);
    }

    method TripBreaker()
      requires Valid()
      modifies this`halted
      ensures Valid() && State() == old(State()).(halted := true)
    {
      halted := true;
    }

    method SweepSlot(i: int, now: int)
      requires Valid() && 0 <= i < 2
      modifies rm, sim, om, om.slots
      ensures Valid() && State() == SweptSlot(old(State()), i, now)
    {
      hide CancelledSlot;
      if Live(om.slots[i]) {
        CancelSlot(i, now);
      }
    }

    method Flatten(now: int)
      requires Valid()
      modifies this`fills, pt, rm, sim, om
      ensures Valid() && State() == Flattened(old(State()), config, now)
    {
      hide Sim.MarketPlaced, AppliedAll;
      var inv := sim.inv;
      if Abs(inv) > config.flattenThreshold {
        rm.RecordSubmission(now);
        var cid := om.nextCid;
        om.nextCid := om.nextCid + 1;
        var ok, newFills := sim.PlaceMarketOrder(if inv > 0.0 then -1 else 1, Abs(inv), cid);
        Feed(newFills);
      }
    }

    /** `on_halt`: cancel what is live, then flatten. */
    method OnHalt(now: int)
      requires Valid()
      modifies this`fills, pt, rm, sim, om, om.slots
      ensures Valid() && State() == BacktestLoop.OnHalt(old(State()), config, now)
    {
      hide SweptSlot, Flattened;
      SweepSlot(BID, now);
      SweepSlot(ASK, now);
      Flatten(now);
    }

    /** `reconcile_now` escalates when local and exchange positions differ by more than
        the tolerance. */
    method Reconcile(tolerance: real) returns (escalates: bool)
      requires Valid()
      ensures escalates <==> Abs(State().tracker.inv - State().sim.account.inv) > tolerance
    {
      escalates := Abs(pt.inventory - sim.inv) > tolerance;
    }
  }
}
