/** The backtest wiring: every simulator fill reaches the position tracker before anything
    else happens, and quotes are driven inline through the order manager. */
module BacktestLoop {
  import opened Fills
  import opened Orders
  import opened PositionTracking
  import opened Risk
  import Sim = Simulator
  import TradeWalk

  datatype Config = Config(limits: Limits, thresh: real, flattenThreshold: real)

  datatype Quote = Quote(bid: real, ask: real, qty: real)

  /** `fills` is everything the simulator has handed out. */
  datatype Loop = Loop(om: Om, sim: Sim.Sim, tracker: Tracker, risk: RiskState, halted: bool, fills: seq<Fill>)

  const INITIAL := Loop(START, Sim.START, FLAT, RiskState([], [], [], 0), false, [])

  // ---- One call of the manager, composed from its segments ----

  function Fed(l: Loop, sim: Sim.Sim, fills: seq<Fill>): Loop {
    l.(sim := sim, tracker := AppliedAll(l.tracker, fills), fills := l.fills + fills)
  }

  /** `place_new`; `order` is the walking order of the simulator's hash table. */
  function PlacedNew(l: Loop, c: Config, i: int, price: real, qty: real, now: int, order: seq<int>): (l': Loop)
    requires Index(l.om, i)
    ensures |l'.om.slots| == 2
  {
    var om := Prepared(l.om, i, price, qty, now);
    if l.halted then l.(om := TurnedDown(om, i))
    else
      var (verdict, risk) := Checked(l.risk.(openOrders := om.openOrders), c.limits, l.tracker,
                                     SignedQty(i, qty), price, l.tracker.mid, now);
      if verdict != Approved then l.(om := TurnedDown(om, i), risk := risk)
      else
        var risk' := risk.(orderTimes := RecordedIn(risk.orderTimes, now, RATE_WINDOW));
        var (sim, fills) := Sim.Placed(l.sim, SideOf(i), qty, price, om.slots[i].cid, order);
        Fed(l.(om := AckReceived(om, i, l.sim.oidSeq + 1), risk := risk'), sim, fills)
  }

  /** `cancel_slot`: the simulator confirms the first attempt. */
  function CancelledSlot(l: Loop, i: int, now: int): (l': Loop)
    requires Index(l.om, i)
    ensures |l'.om.slots| == 2
  {
    l.(om := CancelConfirmed(l.om, i), sim := Sim.Cancelled(l.sim, l.om.slots[i].cid),
       risk := l.risk.(cancelTimes := RecordedIn(l.risk.cancelTimes, now, RATE_WINDOW)))
  }

  function Requoted(l: Loop, c: Config, i: int, price: real, qty: real, now: int, order: seq<int>): (l': Loop)
    requires Index(l.om, i)
    ensures |l'.om.slots| == 2
  {
    var (om, d) := Begun(l.om, i, price, c.thresh);
    match d
    case Keep => l
    case CancelFirst => PlacedNew(CancelledSlot(l, i, now), c, i, price, qty, now, order)
    case PlaceNow => PlacedNew(l.(om := om), c, i, price, qty, now, order)
  }

  function OnQuote(l: Loop, c: Config, q: Quote, now: int, orders: (seq<int>, seq<int>)): (l': Loop)
    requires |l.om.slots| == 2
    ensures |l'.om.slots| == 2
  {
    if l.halted then l
    else
      Requoted(Requoted(l, c, BID, q.bid, q.qty, now, orders.0), c, ASK, q.ask, q.qty, now, orders.1)
  }

  function OnMarket(l: Loop, book: Sim.Book, order: seq<int>): Loop {
    var (sim, fills) := Sim.MarketMoved(l.sim, book, order);
    var l' := Fed(l, sim, fills);
    var mid := (book.bid + book.ask) * 0.5;
    if mid > 0.0 then l'.(tracker := l'.tracker.(mid := mid)) else l'
  }

  function SweptSlot(l: Loop, i: int, now: int): (l': Loop)
    requires Index(l.om, i)
    ensures |l'.om.slots| == 2
  {
    if Live(l.om.slots[i]) then CancelledSlot(l, i, now) else l
  }

  /** The flatten is sized from the exchange's own position. */
  function Flattened(l: Loop, c: Config, now: int): (l': Loop)
    ensures l'.om.slots == l.om.slots
  {
    var inv := l.sim.account.inv;
    if Abs(inv) <= c.flattenThreshold then l
    else
      var (ok, sim, fills) := Sim.MarketPlaced(l.sim, if inv > 0.0 then -1 else 1, Abs(inv), l.om.nextCid);
      Fed(l.(om := l.om.(nextCid := l.om.nextCid + 1),
             risk := l.risk.(orderTimes := RecordedIn(l.risk.orderTimes, now, RATE_WINDOW))), sim, fills)
  }

  function OnHalt(l: Loop, c: Config, now: int): (l': Loop)
    requires |l.om.slots| == 2
    ensures |l'.om.slots| == 2
  {
    Flattened(SweptSlot(SweptSlot(l, BID, now), ASK, now), c, now)
  }

  // ---- Runs ----

  datatype Op =
    | Market(book: Sim.Book, order: seq<int>)
    | QuoteIn(q: Quote, now: int, orders: (seq<int>, seq<int>))
    | Trip
    | HaltSweep(now: int)

  function Did(l: Loop, c: Config, op: Op): (l': Loop)
    requires |l.om.slots| == 2
    ensures |l'.om.slots| == 2
  {
    match op
    case Market(book, order) => OnMarket(l, book, order)
    case QuoteIn(q, now, orders) => OnQuote(l, c, q, now, orders)
    case Trip => l.(halted := true)
    case HaltSweep(now) => if l.halted then OnHalt(l, c, now) else l
  }

  function After(c: Config, ops: seq<Op>): (l: Loop)
    ensures |l.om.slots| == 2
  {
    if ops == [] then INITIAL else Did(After(c, ops[..|ops| - 1]), c, ops[|ops| - 1])
  }

  // ---- Accounts: tracker and simulator book the same list of fills ----

  ghost predicate SameBooks(l: Loop) {
    && l.tracker == AppliedAll(FLAT, l.fills).(mid := l.tracker.mid)
    && l.sim.account == Sim.BookedAll(Sim.START.account, l.fills)
  }

  lemma AppliedIgnoresMid(t: Tracker, f: Fill, mid: real)
    ensures Applied(t.(mid := mid), f) == Applied(t, f).(mid := mid)
  {
    hide Average, Gain;
  }

  lemma {:induction false} AppliedJoins(t: Tracker, a: seq<Fill>, b: seq<Fill>)
    ensures AppliedAll(AppliedAll(t, a), b) == AppliedAll(t, a + b)
    decreases |b|
  {
    hide Applied;
    if b == [] {
      assert a + b == a;
    } else {
      AppliedJoins(t, a, b[..|b| - 1]);
      assert (a + b)[..|a + b| - 1] == a + b[..|b| - 1];
    }
  }

  lemma {:induction false} AppliedAllIgnoresMid(t: Tracker, fills: seq<Fill>, mid: real)
    ensures AppliedAll(t.(mid := mid), fills) == AppliedAll(t, fills).(mid := mid)
    decreases |fills|
  {
    hide Applied;
    if fills == [] {
    } else {
      AppliedAllIgnoresMid(t, fills[..|fills| - 1], mid);
      AppliedIgnoresMid(AppliedAll(t, fills[..|fills| - 1]), fills[|fills| - 1], mid);
    }
  }

  lemma {:induction false} BookedJoins(x: Sim.Account, a: seq<Fill>, b: seq<Fill>)
    ensures Sim.BookedAll(Sim.BookedAll(x, a), b) == Sim.BookedAll(x, a + b)
    decreases |b|
  {
    hide Sim.Booked;
    if b == [] {
      assert a + b == a;
    } else {
      BookedJoins(x, a, b[..|b| - 1]);
      assert (a + b)[..|a + b| - 1] == a + b[..|b| - 1];
    }
  }

  lemma {:induction false} AppliedKeepsMid(t: Tracker, fills: seq<Fill>)
    ensures AppliedAll(t, fills).mid == t.mid
    decreases |fills|
  {
    if fills == [] {
    } else {
      AppliedKeepsMid(t, fills[..|fills| - 1]);
    }
  }

  /** Fills that the simulator's own account has booked reach the tracker unchanged. */
  lemma FedKeepsBooks(l: Loop, sim: Sim.Sim, fills: seq<Fill>)
    requires SameBooks(l) && sim.account == Sim.BookedAll(l.sim.account, fills)
    ensures SameBooks(Fed(l, sim, fills))
  {
    AppliedJoins(FLAT, l.fills, fills);
    AppliedAllIgnoresMid(AppliedAll(FLAT, l.fills), fills, l.tracker.mid);
    BookedJoins(Sim.START.account, l.fills, fills);
    AppliedKeepsMid(l.tracker, fills);
    hide Applied, AppliedAll, Sim.Booked, Sim.BookedAll;
  }

  lemma ScannedBooks(sim: Sim.Sim, order: seq<int>)
    ensures Sim.Scanned(sim, order).0.account == Sim.BookedAll(sim.account, Sim.Scanned(sim, order).1)
  {
    hide Sim.Booked, Sim.Visit;
    Sim.ScanBooksItsFills(Sim.Scan(sim, [], {}), order);
  }

  lemma SameBooksOf(l: Loop, l': Loop)
    requires SameBooks(l)
    ensures l'.tracker == l.tracker && l'.sim.account == l.sim.account && l'.fills == l.fills ==> SameBooks(l')
  {}

  lemma PlacedNewKeepsBooks(l: Loop, c: Config, i: int, price: real, qty: real, now: int, order: seq<int>)
    requires Index(l.om, i) && SameBooks(l)
    ensures SameBooks(PlacedNew(l, c, i, price, qty, now, order))
  {
    hide SameBooks, Checked, Fed, Sim.Scanned, Sim.BookedAll;
    var om := Prepared(l.om, i, price, qty, now);
    var (verdict, risk) := Checked(l.risk.(openOrders := om.openOrders), c.limits, l.tracker,
                                   SignedQty(i, qty), price, l.tracker.mid, now);
    SameBooksOf(l, PlacedNew(l, c, i, price, qty, now, order));
    if !l.halted && verdict == Approved {
      var cid := om.slots[i].cid;
      var risk' := risk.(orderTimes := RecordedIn(risk.orderTimes, now, RATE_WINDOW));
      var l1 := l.(om := AckReceived(om, i, l.sim.oidSeq + 1), risk := risk');
      SameBooksOf(l, l1);
      ScannedBooks(l.sim.(oidSeq := l.sim.oidSeq + 1,
        pending := l.sim.pending[cid := Sim.Pending(l.sim.oidSeq + 1, SideOf(i), qty, price, 0.0)]), order);
      var (sim, fills) := Sim.Placed(l.sim, SideOf(i), qty, price, cid, order);
      FedKeepsBooks(l1, sim, fills);
    }
  }

  lemma BegunIndex(om: Om, i: int, price: real, thresh: real)
    requires Index(om, i)
    ensures Index(Begun(om, i, price, thresh).0, i) && Index(CancelConfirmed(om, i), i)
  {}

  lemma RequotedKeepsBooks(l: Loop, c: Config, i: int, price: real, qty: real, now: int, order: seq<int>)
    requires Index(l.om, i) && SameBooks(l)
    ensures SameBooks(Requoted(l, c, i, price, qty, now, order))
  {
    hide SameBooks, PlacedNew, Begun, CancelConfirmed;
    var om := Begun(l.om, i, price, c.thresh).0;
    SameBooksOf(l, CancelledSlot(l, i, now));
    SameBooksOf(l, l.(om := om));
    BegunIndex(l.om, i, price, c.thresh);
    PlacedNewKeepsBooks(CancelledSlot(l, i, now), c, i, price, qty, now, order);
    PlacedNewKeepsBooks(l.(om := om), c, i, price, qty, now, order);
  }

  lemma FlattenedKeepsBooks(l: Loop, c: Config, now: int)
    requires SameBooks(l)
    ensures SameBooks(Flattened(l, c, now))
  {
    hide SameBooks, Sim.Booked;
    var inv := l.sim.account.inv;
    if Abs(inv) > c.flattenThreshold {
      var (ok, sim, fills) := Sim.MarketPlaced(l.sim, if inv > 0.0 then -1 else 1, Abs(inv), l.om.nextCid);
      var l1 := l.(om := l.om.(nextCid := l.om.nextCid + 1),
                   risk := l.risk.(orderTimes := RecordedIn(l.risk.orderTimes, now, RATE_WINDOW)));
      SameBooksOf(l, l1);
      assert sim.account == Sim.BookedAll(l.sim.account, fills) by {
        if ok {
          assert fills[..|fills| - 1] == [];
          assert Sim.BookedAll(l.sim.account, fills) ==
                 Sim.Booked(Sim.BookedAll(l.sim.account, []), Signed(fills[0]), fills[0].price);
        }
      }
      FedKeepsBooks(l1, sim, fills);
    }
  }

  lemma OpKeepsBooks(l: Loop, c: Config, op: Op)
    requires |l.om.slots| == 2 && SameBooks(l)
    ensures SameBooks(Did(l, c, op))
  {
    hide Requoted, Flattened, Sim.Scanned, AppliedAll, Sim.BookedAll;
    match op
    case Market(book, order) =>
      ScannedBooks(l.sim.(book := book), order);
      var (sim, fills) := Sim.MarketMoved(l.sim, book, order);
      FedKeepsBooks(l, sim, fills);
    case QuoteIn(q, now, orders) =>
      hide SameBooks;
      RequotedKeepsBooks(l, c, BID, q.bid, q.qty, now, orders.0);
      RequotedKeepsBooks(Requoted(l, c, BID, q.bid, q.qty, now, orders.0), c, ASK, q.ask, q.qty, now, orders.1);
    case Trip =>
    case HaltSweep(now) =>
      var l1 := SweptSlot(l, BID, now);
      FlattenedKeepsBooks(SweptSlot(l1, ASK, now), c, now);
  }

  lemma {:induction false} BooksStayTheSame(c: Config, ops: seq<Op>)
    ensures SameBooks(After(c, ops))
    decreases |ops|
  {
    hide Did;
    if ops == [] {
    } else {
      BooksStayTheSame(c, ops[..|ops| - 1]);
      OpKeepsBooks(After(c, ops[..|ops| - 1]), c, ops[|ops| - 1]);
    }
  }

  lemma {:induction false} VisitsKeepBook(s: Sim.Scan, order: seq<int>)
    ensures Sim.VisitAll(s, order).sim.oidSeq == s.sim.oidSeq && Sim.VisitAll(s, order).sim.book == s.sim.book
    decreases |order|
  {
    if order == [] {
    } else {
      VisitsKeepBook(s, order[..|order| - 1]);
    }
  }

  lemma ScanKeepsBook(sim: Sim.Sim, order: seq<int>)
    ensures Sim.Scanned(sim, order).0.oidSeq == sim.oidSeq && Sim.Scanned(sim, order).0.book == sim.book
  {
    VisitsKeepBook(Sim.Scan(sim, [], {}), order);
    hide Sim.VisitAll;
  }

  /** A record replaces the exchange's book, and the tracker's mid is halfway between a bid
      and an ask that are not both absent. It touches neither slots nor windows. */
  lemma MarketIsSeen(l: Loop, book: Sim.Book, order: seq<int>)
    ensures var l' := OnMarket(l, book, order);
            && l'.sim.book == book && l'.om == l.om && l'.risk == l.risk && l'.halted == l.halted
            && (book.bid + book.ask > 0.0 ==> 2.0 * l'.tracker.mid == book.bid + book.ask)
            && (book.bid + book.ask <= 0.0 ==> l'.tracker.mid == l.tracker.mid)
  {
    ScanKeepsBook(l.sim.(book := book), order);
    AppliedKeepsMid(l.tracker, Sim.MarketMoved(l.sim, book, order).1);
    hide Sim.Scanned, AppliedAll;
  }

  ghost predicate AllAgree(l: Loop) {
    && TradeWalk.Agree(l.tracker, l.sim.account, TradeWalk.WalkAfter(l.fills))
    && TradeWalk.Sum(TradeWalk.PerTrade(l.fills)) == l.tracker.realized - l.tracker.fees
  }

  /** In every run whose fills are valid and on the lot grid, tracker, simulator and
      dashboard agree. */
  lemma AgreeOnGridFills(c: Config, ops: seq<Op>, lot: real)
    requires GridFills(After(c, ops).fills, lot)
    ensures AllAgree(After(c, ops))
  {
    BooksStayTheSame(c, ops);
    TradeWalk.AccountingsAgree(After(c, ops).fills, lot);
    hide After, AppliedAll, Sim.BookedAll, TradeWalk.WalkAfter, TradeWalk.Sum, TradeWalk.PerTrade;
  }

  // ---- What rests, and the slots that stand for it ----

  /** Later is earlier with some orders filled further or gone. */
  ghost predicate Shrunk(pending: map<int, Sim.Pending>, pending': map<int, Sim.Pending>) {
    forall cid :: cid in pending' ==>
      && cid in pending && pending'[cid].side == pending[cid].side
      && pending'[cid].price == pending[cid].price && pending'[cid].qty == pending[cid].qty
  }

  lemma VisitShrinks(s: Sim.Scan, cid: int)
    ensures Shrunk(s.sim.pending, Sim.Visit(s, cid).sim.pending)
  {
    hide Sim.Booked;
  }

  lemma {:induction false} VisitAllShrinks(s: Sim.Scan, order: seq<int>)
    ensures Shrunk(s.sim.pending, Sim.VisitAll(s, order).sim.pending)
    decreases |order|
  {
    hide Sim.Visit;
    if order == [] {
    } else {
      VisitAllShrinks(s, order[..|order| - 1]);
      VisitShrinks(Sim.VisitAll(s, order[..|order| - 1]), order[|order| - 1]);
    }
  }

  lemma ScanShrinks(sim: Sim.Sim, order: seq<int>)
    ensures Shrunk(sim.pending, Sim.Scanned(sim, order).0.pending)
  {
    VisitAllShrinks(Sim.Scan(sim, [], {}), order);
    hide Sim.VisitAll;
  }

  /** Each resting order is that of the acknowledged slot of its side, at its price and for
      its quantity. */
  ghost predicate Owned(om: Om, pending: map<int, Sim.Pending>) {
    && |om.slots| == 2
    && (forall i :: 0 <= i < 2 ==> NO_CID <= om.slots[i].cid < om.nextCid)
    && (om.slots[BID].cid == om.slots[ASK].cid ==> om.slots[BID].cid == NO_CID)
    && NO_CID !in pending
    && forall cid :: cid in pending ==>
         var s := om.slots[SlotOfSide(pending[cid].side)];
         && (pending[cid].side == 1 || pending[cid].side == -1)
         && s.cid == cid && s.active && s.state.Acknowledged?
         && s.side == pending[cid].side && s.price == pending[cid].price && s.qty == pending[cid].qty
  }

  predicate NoneOf(pending: map<int, Sim.Pending>, i: int) {
    forall cid :: cid in pending ==> SlotOfSide(pending[cid].side) != i
  }

  lemma OwnedShrinks(om: Om, pending: map<int, Sim.Pending>, pending': map<int, Sim.Pending>)
    requires Owned(om, pending) && Shrunk(pending, pending')
    ensures Owned(om, pending')
  {}

  /** What the simulator does with a new order: it rests, and a scan follows. */
  function Resting(sim: Sim.Sim, i: int, price: real, qty: real, cid: int): Sim.Sim {
    var oid := sim.oidSeq + 1;
    sim.(oidSeq := oid, pending := sim.pending[cid := Sim.Pending(oid, SideOf(i), qty, price, 0.0)])
  }

  /** The verdict on a new order, and the risk state once it has been recorded. */
  function Verdict(l: Loop, c: Config, i: int, price: real, qty: real, now: int): (RiskResult, RiskState)
    requires Index(l.om, i)
  {
    var om := Prepared(l.om, i, price, qty, now);
    var (verdict, risk) := Checked(l.risk.(openOrders := om.openOrders), c.limits, l.tracker,
                                   SignedQty(i, qty), price, l.tracker.mid, now);
    (verdict,
     if verdict == Approved then risk.(orderTimes := RecordedIn(risk.orderTimes, now, RATE_WINDOW)) else risk)
  }

  /** A new order is turned down, or it rests and is scanned. */
  lemma PlacedNewIs(l: Loop, c: Config, i: int, price: real, qty: real, now: int, order: seq<int>)
    requires Index(l.om, i)
    ensures var l' := PlacedNew(l, c, i, price, qty, now, order);
            var om := Prepared(l.om, i, price, qty, now);
            var (verdict, risk) := Verdict(l, c, i, price, qty, now);
            if l.halted then l' == l.(om := TurnedDown(om, i))
            else if verdict != Approved then l' == l.(om := TurnedDown(om, i), risk := risk)
            else
              var (sim, fills) := Sim.Scanned(Resting(l.sim, i, price, qty, l.om.nextCid), order);
              l' == Fed(l.(om := AckReceived(om, i, l.sim.oidSeq + 1), risk := risk), sim, fills)
  {
    PreparedSlot(l.om, i, price, qty, now);
    hide Checked, Prepared, TurnedDown, AckReceived, Fed, Sim.Scanned;
  }

  lemma RestingIsOwned(l: Loop, i: int, price: real, qty: real, om: Om)
    requires Index(l.om, i) && Owned(l.om, l.sim.pending) && NoneOf(l.sim.pending, i)
    requires |om.slots| == 2 && om.nextCid == l.om.nextCid + 1 && om.slots[1 - i] == l.om.slots[1 - i]
    requires om.slots[i].cid == l.om.nextCid && om.slots[i].active && om.slots[i].state.Acknowledged?
    requires om.slots[i].price == price && om.slots[i].qty == qty && om.slots[i].side == SideOf(i)
    ensures Owned(om, Resting(l.sim, i, price, qty, l.om.nextCid).pending)
  {}

  /** The sides, the ids and the mid through a placement. */
  lemma PlacedNewKeepsOwned(l: Loop, c: Config, i: int, price: real, qty: real, now: int, order: seq<int>)
    requires Index(l.om, i) && Owned(l.om, l.sim.pending) && NoneOf(l.sim.pending, i)
    ensures var l' := PlacedNew(l, c, i, price, qty, now, order);
            && Owned(l'.om, l'.sim.pending) && l'.tracker.mid == l.tracker.mid
  {
    PlacedNewIs(l, c, i, price, qty, now, order);
    PreparedSlot(l.om, i, price, qty, now);
    var resting := Resting(l.sim, i, price, qty, l.om.nextCid);
    var om := AckReceived(Prepared(l.om, i, price, qty, now), i, l.sim.oidSeq + 1);
    RestingIsOwned(l, i, price, qty, om);
    hide PlacedNew, Prepared, AckReceived, TurnedDown, Verdict, Sim.Scanned, Resting;
    ScanShrinks(resting, order);
    var (sim, fills) := Sim.Scanned(resting, order);
    OwnedShrinks(om, resting.pending, sim.pending);
    AppliedKeepsMid(l.tracker, fills);
    hide AppliedAll;
  }

  lemma CancelledKeepsOwned(l: Loop, i: int, now: int)
    requires Index(l.om, i) && Owned(l.om, l.sim.pending)
    ensures var l' := CancelledSlot(l, i, now);
            && Owned(l'.om, l'.sim.pending) && NoneOf(l'.sim.pending, i)
            && l' == l.(om := l'.om, sim := l.sim.(pending := l'.sim.pending), risk := l'.risk)
            && Shrunk(l.sim.pending, l'.sim.pending) && l'.om.slots[1 - i] == l.om.slots[1 - i]
            && l'.sim.pending.Keys == l.sim.pending.Keys - {l.om.slots[i].cid}
  {}

  lemma BegunKeepsOwned(l: Loop, i: int, price: real, thresh: real)
    requires Index(l.om, i) && Owned(l.om, l.sim.pending)
    ensures var (om, d) := Begun(l.om, i, price, thresh);
            Owned(om, l.sim.pending) && (d.PlaceNow? ==> NoneOf(l.sim.pending, i))
  {}

  lemma RequotedKeepsOwned(l: Loop, c: Config, i: int, price: real, qty: real, now: int, order: seq<int>)
    requires Index(l.om, i) && Owned(l.om, l.sim.pending)
    ensures var l' := Requoted(l, c, i, price, qty, now, order);
            && Owned(l'.om, l'.sim.pending) && l'.tracker.mid == l.tracker.mid
  {
    BegunKeepsOwned(l, i, price, c.thresh);
    CancelledKeepsOwned(l, i, now);
    hide PlacedNew, CancelledSlot, Owned, Begun, NoneOf;
    var (om, d) := Begun(l.om, i, price, c.thresh);
    match d
    case Keep =>
    case CancelFirst => PlacedNewKeepsOwned(CancelledSlot(l, i, now), c, i, price, qty, now, order);
    case PlaceNow => PlacedNewKeepsOwned(l.(om := om), c, i, price, qty, now, order);
  }

  /** The order a live slot stands for. */
  function LiveCid(om: Om, i: int): set<int>
    requires Index(om, i)
  {
    if Live(om.slots[i]) then {om.slots[i].cid} else {}
  }

  lemma SweptOne(l: Loop, i: int, now: int)
    requires Index(l.om, i) && Owned(l.om, l.sim.pending)
    ensures var l' := SweptSlot(l, i, now);
            && Owned(l'.om, l'.sim.pending) && l'.om.slots[1 - i] == l.om.slots[1 - i]
            && l' == l.(om := l'.om, sim := l.sim.(pending := l'.sim.pending), risk := l'.risk)
            && l'.sim.pending.Keys == l.sim.pending.Keys - LiveCid(l.om, i)
  {
    CancelledKeepsOwned(l, i, now);
    hide CancelledSlot, Owned;
  }

  function SweptBoth(l: Loop, now: int): (l': Loop)
    requires |l.om.slots| == 2
    ensures |l'.om.slots| == 2
  {
    SweptSlot(SweptSlot(l, BID, now), ASK, now)
  }

  /** Cancelling what the live slots stand for leaves nothing at the exchange. */
  lemma SweptEmpties(l: Loop, now: int)
    requires Owned(l.om, l.sim.pending)
    ensures var l' := SweptBoth(l, now);
            && Owned(l'.om, l'.sim.pending)
            && l' == l.(om := l'.om, sim := l.sim.(pending := map[]), risk := l'.risk)
  {
    var l1 := SweptSlot(l, BID, now);
    SweptOne(l, BID, now);
    SweptOne(l1, ASK, now);
    forall cid | cid in l.sim.pending ensures cid in LiveCid(l.om, BID) + LiveCid(l.om, ASK) {
      assert l.om.slots[SlotOfSide(l.sim.pending[cid].side)].cid == cid;
    }
    hide SweptSlot, Owned;
    assert SweptBoth(l, now).sim.pending.Keys == {};
  }

  lemma FlattenedKeepsOwned(l: Loop, c: Config, now: int)
    requires Owned(l.om, l.sim.pending)
    ensures var l' := Flattened(l, c, now);
            && Owned(l'.om, l'.sim.pending) && l'.sim.pending == l.sim.pending
            && l'.tracker.mid == l.tracker.mid && l'.halted == l.halted
  {
    hide Sim.Booked;
    var inv := l.sim.account.inv;
    var (ok, sim, fills) := Sim.MarketPlaced(l.sim, if inv > 0.0 then -1 else 1, Abs(inv), l.om.nextCid);
    AppliedKeepsMid(l.tracker, fills);
    hide AppliedAll;
  }

  function MidAfter(mid: real, op: Op): real {
    if op.Market? && (op.book.bid + op.book.ask) * 0.5 > 0.0 then (op.book.bid + op.book.ask) * 0.5 else mid
  }

  lemma OpKeepsOwned(l: Loop, c: Config, op: Op)
    requires Owned(l.om, l.sim.pending)
    ensures var l' := Did(l, c, op);
            Owned(l'.om, l'.sim.pending) && l'.tracker.mid == MidAfter(l.tracker.mid, op)
  {
    assert |l.om.slots| == 2;
    hide Owned, Requoted, SweptSlot, Flattened, Sim.Scanned, AppliedAll;
    match op
    case Market(book, order) =>
      var (sim, fills) := Sim.MarketMoved(l.sim, book, order);
      ScanShrinks(l.sim.(book := book), order);
      OwnedShrinks(l.om, l.sim.pending, sim.pending);
      AppliedKeepsMid(l.tracker, fills);
    case QuoteIn(q, now, orders) =>
      if !l.halted {
        RequotedKeepsOwned(l, c, BID, q.bid, q.qty, now, orders.0);
        RequotedKeepsOwned(Requoted(l, c, BID, q.bid, q.qty, now, orders.0), c, ASK, q.ask, q.qty, now, orders.1);
      }
    case Trip =>
    case HaltSweep(now) =>
      SweptEmpties(l, now);
      FlattenedKeepsOwned(SweptBoth(l, now), c, now);
  }

  /** The last positive mid the market updates have shown. */
  function LastMid(ops: seq<Op>): real {
    if ops == [] then 0.0 else MidAfter(LastMid(ops[..|ops| - 1]), ops[|ops| - 1])
  }

  lemma {:induction false} RunKeepsOwned(c: Config, ops: seq<Op>)
    ensures Owned(After(c, ops).om, After(c, ops).sim.pending)
    ensures After(c, ops).tracker.mid == LastMid(ops)
    decreases |ops|
  {
    if ops == [] {
    } else {
      hide Did, Owned, MidAfter;
      RunKeepsOwned(c, ops[..|ops| - 1]);
      OpKeepsOwned(After(c, ops[..|ops| - 1]), c, ops[|ops| - 1]);
    }
  }

  // ---- What a quote does to the two slots ----

  /** The slot was left alone because its order rests close enough. */
  predicate Stays(s: Slot, price: real, thresh: real) {
    Live(s) && price - thresh <= s.price <= price + thresh
  }

  /** What quoting `price` and `qty` on one side makes of its slot: a live order close enough
      is kept, and otherwise the slot holds a new order, under the next id, at that price
      and for that quantity. */
  predicate QuotedSlot(s: Slot, s': Slot, side: int, price: real, qty: real, thresh: real, nextCid: int) {
    && (s'.cid == s.cid <==> Stays(s, price, thresh))
    && (s'.cid == s.cid ==> s' == s)
    && (s'.cid != s.cid ==> s'.cid == nextCid && s'.side == side && s'.price == price && s'.qty == qty)
  }

  lemma PlacedNewSlots(l: Loop, c: Config, i: int, price: real, qty: real, now: int, order: seq<int>)
    requires Index(l.om, i)
    ensures var om := PlacedNew(l, c, i, price, qty, now, order).om;
            && om.nextCid == l.om.nextCid + 1 && |om.slots| == 2 && om.slots[1 - i] == l.om.slots[1 - i]
            && om.slots[i].cid == l.om.nextCid && om.slots[i].side == SideOf(i)
            && om.slots[i].price == price && om.slots[i].qty == qty
  {
    PlacedNewIs(l, c, i, price, qty, now, order);
    PreparedSlot(l.om, i, price, qty, now);
    hide PlacedNew, Prepared, AckReceived, TurnedDown, Verdict, Sim.Scanned, AppliedAll;
  }

  lemma RequotedSlots(l: Loop, c: Config, i: int, price: real, qty: real, now: int, order: seq<int>)
    requires Index(l.om, i) && l.om.slots[i].cid < l.om.nextCid
    ensures var om := Requoted(l, c, i, price, qty, now, order).om;
            && |om.slots| == 2 && om.slots[1 - i] == l.om.slots[1 - i]
            && QuotedSlot(l.om.slots[i], om.slots[i], SideOf(i), price, qty, c.thresh, l.om.nextCid)
            && om.nextCid == l.om.nextCid + (if Stays(l.om.slots[i], price, c.thresh) then 0 else 1)
  {
    hide PlacedNew;
    var (om, d) := Begun(l.om, i, price, c.thresh);
    match d
    case Keep =>
    case CancelFirst =>
      PlacedNewSlots(CancelledSlot(l, i, now), c, i, price, qty, now, order);
    case PlaceNow =>
      PlacedNewSlots(l.(om := om), c, i, price, qty, now, order);
  }

  lemma OwnedIds(om: Om, pending: map<int, Sim.Pending>)
    requires Owned(om, pending)
    ensures |om.slots| == 2 && om.slots[0].cid < om.nextCid && om.slots[1].cid < om.nextCid
  {}

  /** The bid is for the first slot and the ask for the second, the bid first. */
  predicate QuotedSides(om: Om, om': Om, q: Quote, thresh: real)
    requires |om.slots| == 2 && |om'.slots| == 2
  {
    var askCid := if om'.slots[0].cid == om.slots[0].cid then om.nextCid else om.nextCid + 1;
    && QuotedSlot(om.slots[0], om'.slots[0], 1, q.bid, q.qty, thresh, om.nextCid)
    && QuotedSlot(om.slots[1], om'.slots[1], -1, q.ask, q.qty, thresh, askCid)
  }

  predicate LiveNear(om: Om, q: Quote, distance: real)
    requires |om.slots| == 2
  {
    && (Live(om.slots[0]) ==> Abs(om.slots[0].price - q.bid) <= distance)
    && (Live(om.slots[1]) ==> Abs(om.slots[1].price - q.ask) <= distance)
  }

  lemma QuotedBoth(l: Loop, c: Config, q: Quote, now: int, orders: (seq<int>, seq<int>))
    requires !l.halted && |l.om.slots| == 2
    requires l.om.slots[0].cid < l.om.nextCid && l.om.slots[1].cid < l.om.nextCid
    ensures QuotedSides(l.om, OnQuote(l, c, q, now, orders).om, q, c.thresh)
  {
    hide Requoted, Stays;
    var l1 := Requoted(l, c, BID, q.bid, q.qty, now, orders.0);
    RequotedSlots(l, c, BID, q.bid, q.qty, now, orders.0);
    RequotedSlots(l1, c, ASK, q.ask, q.qty, now, orders.1);
  }

  lemma QuotedAreNear(om: Om, om': Om, q: Quote, thresh: real)
    requires |om.slots| == 2 && |om'.slots| == 2 && QuotedSides(om, om', q, thresh)
    ensures LiveNear(om', q, Max0(thresh))
  {}

  /** In every run, an unhalted quote puts the bid on the BID slot and the ask on the ASK
      slot, the bid first; so each live slot is then within the threshold of its own side
      of the quote. */
  lemma QuoteReachesItsSides(c: Config, ops: seq<Op>, q: Quote, now: int, orders: (seq<int>, seq<int>))
    requires !After(c, ops).halted
    ensures var om, om' := After(c, ops).om, OnQuote(After(c, ops), c, q, now, orders).om;
            QuotedSides(om, om', q, c.thresh) && LiveNear(om', q, Max0(c.thresh))
  {
    var l := After(c, ops);
    RunKeepsOwned(c, ops);
    OwnedIds(l.om, l.sim.pending);
    hide After, OnQuote, QuotedSides, LiveNear, Owned, Max0;
    QuotedBoth(l, c, q, now, orders);
    QuotedAreNear(l.om, OnQuote(l, c, q, now, orders).om, q, c.thresh);
  }

  /** In every run a resting order has the price, the quantity and the side of the slot of
      its side: a buy that of the first slot, a sell that of the second. */
  lemma RestingOrdersAreSlots(c: Config, ops: seq<Op>, cid: int)
    ensures var l := After(c, ops);
            && |l.om.slots| == 2
            && (cid in l.sim.pending ==>
                  var p := l.sim.pending[cid];
                  var s := l.om.slots[if p.side == 1 then 0 else 1];
                  (p.side == 1 || p.side == -1) && s.cid == cid && s.active && s.state.Acknowledged?
                  && s.side == p.side && s.price == p.price && s.qty == p.qty)
  {
    RunKeepsOwned(c, ops);
    hide After;
  }

  // ---- The position limit ----

  function Bound(c: Config): real {
    Max0(c.limits.maxPosition)
  }

  /** Inventory is within the bound, and stays so if all that rests on either side fills;
      at most one order per side rests. */
  ghost predicate Bounded(pending: map<int, Sim.Pending>, inv: real, bound: real) {
    && -bound <= inv <= bound
    && (forall a, b :: a in pending && b in pending && pending[a].side == pending[b].side ==> a == b)
    && (forall cid :: cid in pending ==>
          && (pending[cid].side == 1 || pending[cid].side == -1)
          && (pending[cid].side == 1 ==> inv + Max0(Sim.Remaining(pending[cid])) <= bound)
          && (pending[cid].side == -1 ==> inv - Max0(Sim.Remaining(pending[cid])) >= -bound))
  }

  ghost predicate PositivePrices(pending: map<int, Sim.Pending>) {
    forall cid :: cid in pending ==> pending[cid].price > 0.0
  }

  ghost predicate AllValid(fills: seq<Fill>) {
    forall i :: 0 <= i < |fills| ==> Valid(fills[i])
  }

  lemma AppliedInv(t: Tracker, f: Fill)
    ensures Applied(t, f).inv == if Valid(f) then t.inv + Signed(f) else t.inv
  {}

  /** An order fills by no more than what was left of it. */
  lemma FilledOrderKeepsBound(pending: map<int, Sim.Pending>, cid: int, p': Sim.Pending, inv: real, f: Fill,
                              bound: real)
    requires cid in pending && Bounded(pending, inv, bound)
    requires p' == pending[cid].(executed := pending[cid].executed + f.qty)
    requires 0.0 < f.qty <= Sim.Remaining(pending[cid]) && f.side == p'.side
    ensures Bounded(pending[cid := p'], if Valid(f) then inv + Signed(f) else inv, bound)
  {}

  lemma VisitKeepsBound(s: Sim.Scan, t: Tracker, cid: int, bound: real)
    requires Bounded(s.sim.pending, AppliedAll(t, s.fills).inv, bound)
    ensures var s' := Sim.Visit(s, cid);
            && Bounded(s'.sim.pending, AppliedAll(t, s'.fills).inv, bound)
            && (PositivePrices(s.sim.pending) && AllValid(s.fills) ==> AllValid(s'.fills))
  {
    var s' := Sim.Visit(s, cid);
    if s'.fills != s.fills {
      var f, p, pending := s'.fills[|s.fills|], s.sim.pending[cid], s.sim.pending;
      assert s'.fills[..|s.fills|] == s.fills;
      AppliedInv(AppliedAll(t, s.fills), f);
      var p' := p.(executed := p.executed + f.qty);
      FilledOrderKeepsBound(pending, cid, p', AppliedAll(t, s.fills).inv, f, bound);
      assert s'.sim.pending == pending[cid := p'];
      hide Applied, AppliedAll, Sim.Booked, Sim.Visit, Bounded;
    }
  }

  lemma {:induction false} VisitAllKeepsBound(s: Sim.Scan, t: Tracker, order: seq<int>, bound: real)
    requires s.fills == [] && Bounded(s.sim.pending, t.inv, bound)
    ensures var s' := Sim.VisitAll(s, order);
            && Bounded(s'.sim.pending, AppliedAll(t, s'.fills).inv, bound)
            && (PositivePrices(s.sim.pending) ==> PositivePrices(s'.sim.pending) && AllValid(s'.fills))
    decreases |order|
  {
    hide Sim.Visit, Bounded, Applied;
    if order == [] {
    } else {
      var front := order[..|order| - 1];
      VisitAllKeepsBound(s, t, front, bound);
      VisitKeepsBound(Sim.VisitAll(s, front), t, order[|order| - 1], bound);
      VisitShrinks(Sim.VisitAll(s, front), order[|order| - 1]);
    }
  }

  /** Feeding a scan to the loop. */
  lemma ScanKeepsBound(sim: Sim.Sim, t: Tracker, order: seq<int>, bound: real)
    requires Bounded(sim.pending, t.inv, bound)
    ensures var (sim', fills) := Sim.Scanned(sim, order);
            && Bounded(sim'.pending, AppliedAll(t, fills).inv, bound)
            && (PositivePrices(sim.pending) ==> PositivePrices(sim'.pending) && AllValid(fills))
  {
    VisitAllKeepsBound(Sim.Scan(sim, [], {}), t, order, bound);
    hide Sim.VisitAll, Applied;
  }

  /** `positive` says that every quote so far was at positive prices or held to them. */
  ghost predicate LoopOk(c: Config, l: Loop, positive: bool) {
    && Bounded(l.sim.pending, l.tracker.inv, Bound(c))
    && (positive ==> PositivePrices(l.sim.pending) && AllValid(l.fills))
  }

  lemma {:induction false} BookedInv(fills: seq<Fill>)
    ensures Sim.BookedAll(Sim.START.account, fills).inv == NetQty(fills)
    decreases |fills|
  {
    if fills == [] {
    } else {
      BookedInv(fills[..|fills| - 1]);
    }
  }

  /** With valid fills the exchange's position is the local one. */
  lemma SameInventory(l: Loop)
    requires SameBooks(l) && AllValid(l.fills)
    ensures l.sim.account.inv == l.tracker.inv
  {
    BookedInv(l.fills);
    BooksFollowCash(l.fills);
    forall f | f in l.fills ensures Valid(f) {}
    AcceptedAll(l.fills);
    hide AppliedAll, Sim.BookedAll, PositionTracking.Accepted;
  }

  predicate PriceSafe(c: Config, price: real, mid: real) {
    price > 0.0 || (c.limits.priceSanityPct < 100.0 && mid > 0.0)
  }

  lemma SentKeepsLoop(l: Loop, c: Config, i: int, price: real, qty: real, order: seq<int>, positive: bool)
    requires Index(l.om, i) && LoopOk(c, l, positive) && NoneOf(l.sim.pending, i)
    requires positive ==> price > 0.0
    requires Abs(l.tracker.inv + SignedQty(i, qty)) <= c.limits.maxPosition
    ensures var (sim, fills) := Sim.Scanned(Resting(l.sim, i, price, qty, l.om.nextCid), order);
            forall l0: Loop :: l0.tracker == l.tracker && l0.fills == l.fills ==>
              LoopOk(c, Fed(l0, sim, fills), positive)
  {
    hide AppliedAll, Sim.Scanned;
    var resting := Resting(l.sim, i, price, qty, l.om.nextCid);
    assert Bounded(resting.pending, l.tracker.inv, Bound(c));
    ScanKeepsBound(resting, l.tracker, order, Bound(c));
    hide Bounded;
  }

  /** An order the gate approves keeps the bound even if all of it fills. */
  lemma PlacedNewKeepsLoop(l: Loop, c: Config, i: int, price: real, qty: real, now: int, order: seq<int>,
                           positive: bool)
    requires Index(l.om, i) && LoopOk(c, l, positive) && NoneOf(l.sim.pending, i)
    requires positive ==> PriceSafe(c, price, l.tracker.mid)
    ensures LoopOk(c, PlacedNew(l, c, i, price, qty, now, order), positive)
  {
    PlacedNewIs(l, c, i, price, qty, now, order);
    var om := Prepared(l.om, i, price, qty, now);
    var rs := l.risk.(openOrders := om.openOrders);
    ApprovedIff(rs, c.limits, l.tracker, SignedQty(i, qty), price, l.tracker.mid, now);
    var verdict := Verdict(l, c, i, price, qty, now).0;
    if !l.halted && verdict == Approved {
      if positive && price <= 0.0 {
        SanePriceIsPositive(c.limits, price, l.tracker.mid);
      }
      hide PlacedNew, Prepared, AckReceived, Checked, Verdict, InsanePrice, Bounded, Resting, Sim.Scanned;
      SentKeepsLoop(l, c, i, price, qty, order, positive);
    } else {
      hide PlacedNew, Prepared, TurnedDown, Verdict;
    }
  }

  lemma CancelledKeepsLoop(l: Loop, l': Loop, c: Config, positive: bool)
    requires LoopOk(c, l, positive) && l'.tracker == l.tracker && l'.fills == l.fills
    requires forall cid :: cid in l'.sim.pending ==> cid in l.sim.pending && l'.sim.pending[cid] == l.sim.pending[cid]
    ensures LoopOk(c, l', positive)
  {}

  lemma RequotedKeepsLoop(l: Loop, c: Config, i: int, price: real, qty: real, now: int, order: seq<int>,
                          positive: bool)
    requires Index(l.om, i) && Owned(l.om, l.sim.pending) && LoopOk(c, l, positive)
    requires positive ==> PriceSafe(c, price, l.tracker.mid)
    ensures LoopOk(c, Requoted(l, c, i, price, qty, now, order), positive)
  {
    BegunKeepsOwned(l, i, price, c.thresh);
    CancelledKeepsOwned(l, i, now);
    CancelledKeepsLoop(l, CancelledSlot(l, i, now), c, positive);
    var (om, d) := Begun(l.om, i, price, c.thresh);
    CancelledKeepsLoop(l, l.(om := om), c, positive);
    hide PlacedNew, CancelledSlot, LoopOk, Owned, NoneOf, Begun;
    match d
    case Keep =>
    case CancelFirst => PlacedNewKeepsLoop(CancelledSlot(l, i, now), c, i, price, qty, now, order, positive);
    case PlaceNow => PlacedNewKeepsLoop(l.(om := om), c, i, price, qty, now, order, positive);
  }

  lemma FlattenedKeepsLoop(l: Loop, c: Config, now: int)
    requires LoopOk(c, l, true) && SameBooks(l) && l.sim.pending == map[]
    ensures LoopOk(c, Flattened(l, c, now), true)
  {
    SameInventory(l);
    var inv := l.sim.account.inv;
    if Abs(inv) > c.flattenThreshold {
      var (ok, sim, fills) := Sim.MarketPlaced(l.sim, if inv > 0.0 then -1 else 1, Abs(inv), l.om.nextCid);
      if ok {
        assert fills[..0] == [];
        assert fills == [fills[0]];
        AppliedInv(l.tracker, fills[0]);
        assert AppliedAll(l.tracker, fills) == Applied(l.tracker, fills[0]);
      }
      hide Applied, SameBooks;
    }
  }

  /** What a quote must satisfy, given the mid, for its orders to be at positive prices. */
  predicate OpSafe(c: Config, mid: real, op: Op) {
    op.QuoteIn? ==> PriceSafe(c, op.q.bid, mid) && PriceSafe(c, op.q.ask, mid)
  }

  lemma OpKeepsLoop(c: Config, l: Loop, op: Op, positive: bool)
    requires Owned(l.om, l.sim.pending) && LoopOk(c, l, positive) && SameBooks(l)
    requires if positive then OpSafe(c, l.tracker.mid, op) else !op.HaltSweep?
    ensures LoopOk(c, Did(l, c, op), positive)
  {
    match op
    case Market(book, order) =>
      ScanKeepsBound(l.sim.(book := book), l.tracker, order, Bound(c));
      hide AppliedAll, Sim.Scanned, Bounded;
    case QuoteIn(q, now, orders) =>
      hide LoopOk, Owned, Requoted;
      if !l.halted {
        var l1 := Requoted(l, c, BID, q.bid, q.qty, now, orders.0);
        RequotedKeepsLoop(l, c, BID, q.bid, q.qty, now, orders.0, positive);
        RequotedKeepsOwned(l, c, BID, q.bid, q.qty, now, orders.0);
        RequotedKeepsLoop(l1, c, ASK, q.ask, q.qty, now, orders.1, positive);
      }
    case Trip =>
    case HaltSweep(now) =>
      SweptEmpties(l, now);
      var l' := SweptBoth(l, now);
      CancelledKeepsLoop(l, l', c, positive);
      hide LoopOk, SweptSlot, Flattened, SameBooks, Owned;
      SameBooksOf(l, l');
      FlattenedKeepsLoop(l', c, now);
  }

  /** Every quote is at positive prices, or held to them by a sanity band below 100% around
      a known mid. It is a condition on the inputs alone. */
  predicate SafeRun(c: Config, ops: seq<Op>) {
    ops == []
    || (SafeRun(c, ops[..|ops| - 1]) && OpSafe(c, LastMid(ops[..|ops| - 1]), ops[|ops| - 1]))
  }

  predicate NoSweep(ops: seq<Op>) {
    ops == [] || (NoSweep(ops[..|ops| - 1]) && !ops[|ops| - 1].HaltSweep?)
  }

  lemma {:induction false} RunsStayOk(c: Config, ops: seq<Op>, positive: bool)
    requires if positive then SafeRun(c, ops) else NoSweep(ops)
    ensures LoopOk(c, After(c, ops), positive)
    decreases |ops|
  {
    if ops == [] {
    } else {
      hide Did, LoopOk, SameBooks, OpSafe, Owned;
      var front, op := ops[..|ops| - 1], ops[|ops| - 1];
      RunsStayOk(c, front, positive);
      BooksStayTheSame(c, front);
      RunKeepsOwned(c, front);
      OpKeepsLoop(c, After(c, front), op, positive);
    }
  }

  /** The position limit: in every run of market updates, quotes and halts, whatever the
      prices and quantities quoted, inventory stays within the limit, and would even if
      the resting orders of either side filled completely. */
  lemma PositionLimit(c: Config, ops: seq<Op>, cid: int)
    requires NoSweep(ops)
    ensures var l := After(c, ops);
            && Abs(l.tracker.inv) <= Bound(c)
            && (cid in l.sim.pending ==>
                  var p := l.sim.pending[cid];
                  && (p.side == 1 ==> l.tracker.inv + Max0(Sim.Remaining(p)) <= Bound(c))
                  && (p.side == -1 ==> l.tracker.inv - Max0(Sim.Remaining(p)) >= -Bound(c)))
  {
    RunsStayOk(c, ops, false);
    hide After;
  }

  lemma InventoryBound(c: Config, l: Loop)
    requires LoopOk(c, l, true)
    ensures Abs(l.tracker.inv) <= Bound(c) && AllValid(l.fills)
  {}

  /** With halts that flatten as well, for runs whose quotes are at positive prices or held
      to them by a sanity band below 100%; and then the exchange's position is the local
      one, so that reconciliation never finds a divergence. */
  lemma PositionLimitWithFlatten(c: Config, ops: seq<Op>, tolerance: real)
    requires SafeRun(c, ops) && tolerance >= 0.0
    ensures var l := After(c, ops);
            && Abs(l.tracker.inv) <= Bound(c)
            && l.sim.account.inv == l.tracker.inv
            && !(Abs(l.tracker.inv - l.sim.account.inv) > tolerance)
  {
    hide After, SafeRun, OpSafe, SameBooks, LoopOk, AllValid, Bound;
    RunsStayOk(c, ops, true);
    BooksStayTheSame(c, ops);
    InventoryBound(c, After(c, ops));
    SameInventory(After(c, ops));
  }

  // ---- The order rate ----

  /** `at`, once for each of `n` orders. */
  function Repeated(at: int, n: int): seq<int> {
    if n <= 0 then [] else Repeated(at, n - 1) + [at]
  }

  /** When the exchange took the limit orders of a run: each quote's time, once for every
      exchange id the quote used up. */
  function SentTimes(c: Config, ops: seq<Op>): seq<int> {
    if ops == [] then []
    else
      var front, op := ops[..|ops| - 1], ops[|ops| - 1];
      SentTimes(c, front) +
      if op.QuoteIn? then Repeated(op.now, After(c, ops).sim.oidSeq - After(c, front).sim.oidSeq) else []
  }

  /** While nothing is halted the rate window is that of a gated trace of looks and
      submissions, and its submissions are the orders sent. */
  ghost predicate Traced(l: Loop, c: Config, trace: seq<Risk.Op>, sent: seq<int>, now: int) {
    && Gated(trace, c.limits.rateThreshold) && UpTo(trace, now) && History(trace) == sent
    && (!l.halted ==> l.risk.orderTimes == BucketAfter(trace, RATE_WINDOW))
  }

  /** What the gate does to the trace: it looks unless an earlier limit is broken. */
  lemma GateIsTraced(rs: RiskState, l: Limits, t: Tracker, qty: real, price: real, mid: real, now: int,
                     trace: seq<Risk.Op>) returns (trace': seq<Risk.Op>)
    requires Gated(trace, l.rateThreshold) && UpTo(trace, now) && rs.orderTimes == BucketAfter(trace, RATE_WINDOW)
    ensures var (verdict, rs') := Checked(rs, l, t, qty, price, mid, now);
            && Gated(trace', l.rateThreshold) && UpTo(trace', now)
            && BucketAfter(trace', RATE_WINDOW) ==
               (if verdict == Approved then RecordedIn(rs'.orderTimes, now, RATE_WINDOW) else rs'.orderTimes)
            && History(trace') == History(trace) + (if verdict == Approved then [now] else [])
  {
    CheckLeaves(rs, l, t, qty, price, mid, now);
    ApprovedExactly(rs, l, t, qty, price, mid, now);
    hide Checked, Equity, InBand, Pruned;
    var verdict := Checked(rs, l, t, qty, price, mid, now).0;
    trace' := trace;
    if !verdict.RejectedPosition? && !verdict.RejectedSize? && !verdict.RejectedPrice? {
      GatedGrows(trace, Look(now), l.rateThreshold);
      BucketGrows(trace, Look(now), RATE_WINDOW);
      trace' := trace + [Look(now)];
      if verdict.Approved? {
        GatedGrows(trace', Risk.Record(now), l.rateThreshold);
        BucketGrows(trace', Risk.Record(now), RATE_WINDOW);
        trace' := trace' + [Risk.Record(now)];
      }
    }
    hide BucketAfter, History, Gated, UpTo;
  }

  lemma PlacedNewIsTraced(l: Loop, c: Config, i: int, price: real, qty: real, now: int, order: seq<int>,
                          trace: seq<Risk.Op>, sent: seq<int>) returns (trace': seq<Risk.Op>)
    requires Index(l.om, i) && Traced(l, c, trace, sent, now) && !l.halted
    ensures var l' := PlacedNew(l, c, i, price, qty, now, order);
            && !l'.halted && l.sim.oidSeq <= l'.sim.oidSeq <= l.sim.oidSeq + 1
            && Traced(l', c, trace', sent + Repeated(now, l'.sim.oidSeq - l.sim.oidSeq), now)
  {
    PlacedNewIs(l, c, i, price, qty, now, order);
    var om := Prepared(l.om, i, price, qty, now);
    trace' := GateIsTraced(l.risk.(openOrders := om.openOrders), c.limits, l.tracker, SignedQty(i, qty), price,
      l.tracker.mid, now, trace);
    ScanKeepsBook(Resting(l.sim, i, price, qty, l.om.nextCid), order);
    assert Repeated(now, 0) == [] && Repeated(now, 1) == [now];
    hide PlacedNew, Prepared, AckReceived, TurnedDown, Checked, Sim.Scanned, AppliedAll, RecordedIn, Pruned, Gated,
      UpTo, BucketAfter, History, Repeated;
  }

  lemma RequotedIsTraced(l: Loop, c: Config, i: int, price: real, qty: real, now: int, order: seq<int>,
                         trace: seq<Risk.Op>, sent: seq<int>) returns (trace': seq<Risk.Op>)
    requires Index(l.om, i) && Traced(l, c, trace, sent, now) && !l.halted
    ensures var l' := Requoted(l, c, i, price, qty, now, order);
            && !l'.halted && l.sim.oidSeq <= l'.sim.oidSeq <= l.sim.oidSeq + 1
            && Traced(l', c, trace', sent + Repeated(now, l'.sim.oidSeq - l.sim.oidSeq), now)
  {
    var (om, d) := Begun(l.om, i, price, c.thresh);
    BegunIndex(l.om, i, price, c.thresh);
    assert Repeated(now, 0) == [];
    hide PlacedNew, Begun, CancelConfirmed, RecordedIn, Gated, UpTo, BucketAfter, History, Repeated;
    match d {
      case Keep => trace' := trace;
      case CancelFirst =>
        trace' := PlacedNewIsTraced(CancelledSlot(l, i, now), c, i, price, qty, now, order, trace, sent);
      case PlaceNow =>
        trace' := PlacedNewIsTraced(l.(om := om), c, i, price, qty, now, order, trace, sent);
    }
  }

  lemma {:induction false} RepeatedJoins(at: int, m: nat, n: nat)
    ensures Repeated(at, m) + Repeated(at, n) == Repeated(at, m + n)
    decreases n
  {
    if n == 0 {
    } else {
      RepeatedJoins(at, m, n - 1);
    }
  }

  lemma SidesAreTraced(l: Loop, l1: Loop, l2: Loop, c: Config, q: Quote, now: int, orders: (seq<int>, seq<int>),
                       trace: seq<Risk.Op>, sent: seq<int>) returns (trace': seq<Risk.Op>)
    requires Index(l.om, BID) && Index(l1.om, ASK) && !l.halted && Traced(l, c, trace, sent, now)
    requires l1 == Requoted(l, c, BID, q.bid, q.qty, now, orders.0)
    requires l2 == Requoted(l1, c, ASK, q.ask, q.qty, now, orders.1)
    ensures Traced(l2, c, trace', sent + Repeated(now, l2.sim.oidSeq - l.sim.oidSeq), now)
  {
    hide Traced, Requoted, Repeated;
    trace' := RequotedIsTraced(l, c, BID, q.bid, q.qty, now, orders.0, trace, sent);
    var m, n := l1.sim.oidSeq - l.sim.oidSeq, l2.sim.oidSeq - l1.sim.oidSeq;
    trace' := RequotedIsTraced(l1, c, ASK, q.ask, q.qty, now, orders.1, trace', sent + Repeated(now, m));
    RepeatedJoins(now, m, n);
    assert sent + Repeated(now, m) + Repeated(now, n) == sent + (Repeated(now, m) + Repeated(now, n));
  }

  lemma QuoteIsTraced(l: Loop, c: Config, q: Quote, now: int, orders: (seq<int>, seq<int>),
                      trace: seq<Risk.Op>, sent: seq<int>) returns (trace': seq<Risk.Op>)
    requires |l.om.slots| == 2 && Traced(l, c, trace, sent, now)
    ensures var l' := OnQuote(l, c, q, now, orders);
            Traced(l', c, trace', sent + Repeated(now, l'.sim.oidSeq - l.sim.oidSeq), now)
  {
    hide Traced, Requoted;
    trace' := trace;
    if l.halted {
      assert sent + Repeated(now, 0) == sent;
    } else {
      var l1 := Requoted(l, c, BID, q.bid, q.qty, now, orders.0);
      trace' := SidesAreTraced(l, l1, OnQuote(l, c, q, now, orders), c, q, now, orders, trace, sent);
    }
    hide Repeated;
  }

  lemma SweepStaysHalted(l: Loop, c: Config, now: int)
    requires |l.om.slots| == 2
    ensures OnHalt(l, c, now).halted == l.halted
  {
    hide CancelConfirmed, AppliedAll;
  }

  lemma OtherOpIsTraced(l: Loop, c: Config, op: Op, trace: seq<Risk.Op>, sent: seq<int>, now: int)
    requires |l.om.slots| == 2 && Traced(l, c, trace, sent, now) && !op.QuoteIn?
    ensures Traced(Did(l, c, op), c, trace, sent, now)
  {
    if op.HaltSweep? {
      SweepStaysHalted(l, c, op.now);
    }
    hide OnHalt, Sim.Scanned, AppliedAll, Gated, BucketAfter, History, UpTo;
  }

  /** Quotes arrive at nondecreasing times, none later than `now`. */
  ghost predicate QuotesInOrder(ops: seq<Op>, now: int) {
    && (forall i :: 0 <= i < |ops| && ops[i].QuoteIn? ==> ops[i].now <= now)
    && (forall i, j :: 0 <= i < j < |ops| && ops[i].QuoteIn? && ops[j].QuoteIn? ==> ops[i].now <= ops[j].now)
  }

  lemma {:induction false} RunIsTraced(c: Config, ops: seq<Op>, now: int) returns (trace: seq<Risk.Op>)
    requires QuotesInOrder(ops, now)
    ensures Traced(After(c, ops), c, trace, SentTimes(c, ops), now)
    decreases |ops|
  {
    hide OnQuote, OnHalt, OnMarket, Repeated;
    if ops == [] {
      trace := [];
    } else {
      var front, op := ops[..|ops| - 1], ops[|ops| - 1];
      var l, sent := After(c, front), SentTimes(c, front);
      hide Gated, BucketAfter, History;
      if op.QuoteIn? {
        trace := RunIsTraced(c, front, op.now);
        trace := QuoteIsTraced(l, c, op.q, op.now, op.orders, trace, sent);
      } else {
        trace := RunIsTraced(c, front, now);
        assert SentTimes(c, ops) == sent;
        OtherOpIsTraced(l, c, op, trace, sent, now);
        hide Traced;
      }
    }
  }

  /** In every run whose quotes arrive in time order, the exchange is sent at most one limit
      order more than the threshold in any 60 seconds, wherever they start. */
  lemma OrderRateBound(c: Config, ops: seq<Op>, now: int, from: int)
    requires QuotesInOrder(ops, now)
    ensures Within(SentTimes(c, ops), from, from + 60_000) <=
            if c.limits.rateThreshold >= 0 then c.limits.rateThreshold + 1 else 0
  {
    var trace := RunIsTraced(c, ops, now);
    RateBound(trace, c.limits.rateThreshold, from);
    hide Gated, BucketAfter, History, After, SentTimes, Within;
  }

  // ---- After a halt ----

  /** Nothing rests, and no position is left above the threshold. */
  ghost predicate Quiet(c: Config, l: Loop) {
    && l.halted && l.sim.pending == map[]
    && (l.sim.account.inv == 0.0 || Abs(l.sim.account.inv) <= c.flattenThreshold)
  }

  lemma {:induction false} NothingToVisit(s: Sim.Scan, order: seq<int>)
    requires s.sim.pending == map[]
    ensures Sim.VisitAll(s, order) == s
    decreases |order|
  {
    if order == [] {
    } else {
      NothingToVisit(s, order[..|order| - 1]);
    }
  }

  lemma QuietIsKept(c: Config, l: Loop, op: Op)
    requires |l.om.slots| == 2 && Quiet(c, l)
    ensures Quiet(c, Did(l, c, op))
  {
    match op
    case Market(book, order) =>
      NothingToVisit(Sim.Scan(l.sim.(book := book), [], {}), order);
      hide Sim.VisitAll;
    case QuoteIn(q, now, orders) =>
    case Trip =>
    case HaltSweep(now) =>
      hide CancelConfirmed;
      var l1 := SweptBoth(l, now);
      assert l1.sim.pending == map[] && l1.sim.account == l.sim.account && l1.halted;
      var inv := l.sim.account.inv;
      var (ok, sim, fills) := Sim.MarketPlaced(l1.sim, if inv > 0.0 then -1 else 1, Abs(inv), l1.om.nextCid);
      assert inv == 0.0 ==> !ok;
  }

  function AfterMore(l: Loop, c: Config, ops: seq<Op>): (l': Loop)
    requires |l.om.slots| == 2
    ensures |l'.om.slots| == 2
  {
    if ops == [] then l else Did(AfterMore(l, c, ops[..|ops| - 1]), c, ops[|ops| - 1])
  }

  lemma {:induction false} QuietForever(c: Config, l: Loop, ops: seq<Op>)
    requires |l.om.slots| == 2 && Quiet(c, l)
    ensures Quiet(c, AfterMore(l, c, ops))
    decreases |ops|
  {
    if ops == [] {
    } else {
      hide Did, Quiet;
      QuietForever(c, l, ops[..|ops| - 1]);
      QuietIsKept(c, AfterMore(l, c, ops[..|ops| - 1]), ops[|ops| - 1]);
    }
  }

  /** Nothing needs flattening, or the book has a price on the side that would do it. */
  predicate CanFlatten(c: Config, sim: Sim.Sim) {
    var inv := sim.account.inv;
    || inv == 0.0 || -c.flattenThreshold <= inv <= c.flattenThreshold
    || (inv > 0.0 && sim.book.bid > 0.0) || (inv < 0.0 && sim.book.ask > 0.0)
  }

  /** A market order for the whole of the exchange's position leaves none. */
  lemma FlattenedAccount(l: Loop, c: Config, now: int)
    requires l.halted && l.sim.pending == map[]
    ensures Quiet(c, Flattened(l, c, now)) <==> CanFlatten(c, l.sim)
  {
    hide Average;
    var inv := l.sim.account.inv;
    var (ok, sim, fills) := Sim.MarketPlaced(l.sim, if inv > 0.0 then -1 else 1, Abs(inv), l.om.nextCid);
    assert ok ==> sim.account.inv == 0.0;
    hide Sim.Booked, AppliedAll;
  }

  /** In every run, whatever the prices quoted and whether or not the tracker's inventory is
      the exchange's: once the breaker has halted, `on_halt` leaves nothing at the exchange
      and the position within the flatten threshold exactly when the book shows the price
      it needs; and then so it stays through every later operation. */
  lemma HaltLeavesNothing(c: Config, ops: seq<Op>, now: int, later: seq<Op>)
    requires After(c, ops).halted
    ensures var l := Did(After(c, ops), c, HaltSweep(now));
            && l.sim.pending == map[]
            && (Quiet(c, l) <==> CanFlatten(c, After(c, ops).sim))
            && (CanFlatten(c, After(c, ops).sim) ==> Quiet(c, AfterMore(l, c, later)))
  {
    var l := After(c, ops);
    var l1 := SweptBoth(l, now);
    RunKeepsOwned(c, ops);
    SweptEmpties(l, now);
    FlattenedKeepsOwned(l1, c, now);
    FlattenedAccount(l1, c, now);
    hide After, SweptSlot, Flattened, Owned;
    assert Did(l, c, HaltSweep(now)) == Flattened(l1, c, now);
    if CanFlatten(c, l.sim) {
      QuietForever(c, Did(l, c, HaltSweep(now)), later);
    }
  }

  // ---- Grids ----

  ghost predicate GridPending(pending: map<int, Sim.Pending>, lot: real) {
    forall cid :: cid in pending ==> OnGrid(pending[cid].qty, lot) && OnGrid(pending[cid].executed, lot)
  }

  ghost predicate GridBook(book: Sim.Book, lot: real) {
    OnGrid(book.bidQty, lot) && OnGrid(book.askQty, lot)
  }

  ghost predicate GridQtys(fills: seq<Fill>, lot: real) {
    forall i :: 0 <= i < |fills| ==> OnGrid(fills[i].qty, lot)
  }

  lemma VisitKeepsGrid(s: Sim.Scan, cid: int, lot: real)
    requires GridPending(s.sim.pending, lot) && GridBook(s.sim.book, lot) && GridQtys(s.fills, lot)
    ensures var s' := Sim.Visit(s, cid);
            GridPending(s'.sim.pending, lot) && s'.sim.book == s.sim.book && GridQtys(s'.fills, lot)
  {
    hide Sim.Booked, OnGrid;
    GridZero(lot);
    if cid in s.sim.pending {
      var p := s.sim.pending[cid];
      GridSum(p.qty, p.executed, lot);
      GridSum(p.executed, Sim.FillQty(s.sim.book, p), lot);
    }
  }

  lemma {:induction false} VisitAllKeepsGrid(s: Sim.Scan, order: seq<int>, lot: real)
    requires GridPending(s.sim.pending, lot) && GridBook(s.sim.book, lot) && GridQtys(s.fills, lot)
    ensures var s' := Sim.VisitAll(s, order);
            GridPending(s'.sim.pending, lot) && s'.sim.book == s.sim.book && GridQtys(s'.fills, lot)
    decreases |order|
  {
    hide Sim.Visit, GridPending, GridQtys;
    if order == [] {
    } else {
      VisitAllKeepsGrid(s, order[..|order| - 1], lot);
      VisitKeepsGrid(Sim.VisitAll(s, order[..|order| - 1]), order[|order| - 1], lot);
    }
  }

  lemma ScanKeepsGrid(sim: Sim.Sim, order: seq<int>, lot: real)
    requires GridPending(sim.pending, lot) && GridBook(sim.book, lot)
    ensures var (sim', fills) := Sim.Scanned(sim, order);
            GridPending(sim'.pending, lot) && sim'.book == sim.book && GridQtys(fills, lot)
  {
    VisitAllKeepsGrid(Sim.Scan(sim, [], {}), order, lot);
    hide Sim.VisitAll, OnGrid;
  }

  ghost predicate GridLoop(l: Loop, lot: real) {
    GridPending(l.sim.pending, lot) && GridBook(l.sim.book, lot) && GridQtys(l.fills, lot)
  }

  lemma PlacedNewKeepsGrid(l: Loop, c: Config, i: int, price: real, qty: real, now: int, order: seq<int>, lot: real)
    requires Index(l.om, i) && GridLoop(l, lot) && OnGrid(qty, lot)
    ensures GridLoop(PlacedNew(l, c, i, price, qty, now, order), lot)
  {
    PlacedNewIs(l, c, i, price, qty, now, order);
    hide PlacedNew, Prepared, AckReceived, TurnedDown, Verdict, Sim.Scanned, OnGrid, AppliedAll;
    GridZero(lot);
    ScanKeepsGrid(Resting(l.sim, i, price, qty, l.om.nextCid), order, lot);
  }

  lemma RequotedKeepsGrid(l: Loop, c: Config, i: int, price: real, qty: real, now: int, order: seq<int>, lot: real)
    requires Index(l.om, i) && GridLoop(l, lot) && OnGrid(qty, lot)
    ensures GridLoop(Requoted(l, c, i, price, qty, now, order), lot)
  {
    hide PlacedNew, OnGrid, CancelConfirmed;
    var (om, d) := Begun(l.om, i, price, c.thresh);
    match d
    case Keep =>
    case CancelFirst => PlacedNewKeepsGrid(CancelledSlot(l, i, now), c, i, price, qty, now, order, lot);
    case PlaceNow => PlacedNewKeepsGrid(l.(om := om), c, i, price, qty, now, order, lot);
  }

  lemma {:induction false} NetQtyOnGrid(fills: seq<Fill>, lot: real)
    requires GridQtys(fills, lot)
    ensures OnGrid(NetQty(fills), lot)
    decreases |fills|
  {
    GridZero(lot);
    if fills == [] {
    } else {
      NetQtyOnGrid(fills[..|fills| - 1], lot);
      GridSum(NetQty(fills[..|fills| - 1]), fills[|fills| - 1].qty, lot);
    }
  }

  lemma FlattenedKeepsGrid(l: Loop, c: Config, now: int, lot: real)
    requires GridLoop(l, lot) && SameBooks(l)
    ensures GridLoop(Flattened(l, c, now), lot)
  {
    var inv := l.sim.account.inv;
    BookedInv(l.fills);
    NetQtyOnGrid(l.fills, lot);
    GridZero(lot);
    GridSum(0.0, inv, lot);
    assert OnGrid(Abs(inv), lot);
    hide OnGrid, SameBooks, Sim.Booked, AppliedAll;
  }

  /** The book's depths and the quoted quantities are whole numbers of lots. */
  ghost predicate GridOp(op: Op, lot: real) {
    (op.Market? ==> GridBook(op.book, lot)) && (op.QuoteIn? ==> OnGrid(op.q.qty, lot))
  }

  ghost predicate GridRun(ops: seq<Op>, lot: real) {
    lot >= EPS && forall k :: 0 <= k < |ops| ==> GridOp(ops[k], lot)
  }

  lemma GridQtysJoin(a: seq<Fill>, b: seq<Fill>, lot: real)
    requires GridQtys(a, lot) && GridQtys(b, lot)
    ensures GridQtys(a + b, lot)
  {}

  lemma EmptyIsGrid(lot: real)
    ensures GridPending(map[], lot) && GridQtys([], lot)
  {}

  lemma OpKeepsGrid(c: Config, l: Loop, op: Op, lot: real)
    requires Owned(l.om, l.sim.pending) && GridLoop(l, lot) && SameBooks(l) && GridOp(op, lot)
    ensures GridLoop(Did(l, c, op), lot)
  {
    assert |l.om.slots| == 2;
    hide OnGrid, GridPending, GridQtys, Requoted, Flattened, Sim.Scanned, AppliedAll, Owned, SameBooks, SweptSlot;
    match op
    case Market(book, order) =>
      ScanKeepsGrid(l.sim.(book := book), order, lot);
      GridQtysJoin(l.fills, Sim.MarketMoved(l.sim, book, order).1, lot);
    case QuoteIn(q, now, orders) =>
      if !l.halted {
        RequotedKeepsGrid(l, c, BID, q.bid, q.qty, now, orders.0, lot);
        RequotedKeepsGrid(Requoted(l, c, BID, q.bid, q.qty, now, orders.0), c, ASK, q.ask, q.qty, now, orders.1, lot);
      }
    case Trip =>
    case HaltSweep(now) =>
      SweptEmpties(l, now);
      var l' := SweptBoth(l, now);
      EmptyIsGrid(lot);
      SameBooksOf(l, l');
      FlattenedKeepsGrid(l', c, now, lot);
  }

  lemma {:induction false} RunKeepsGrid(c: Config, ops: seq<Op>, lot: real)
    requires GridRun(ops, lot)
    ensures GridLoop(After(c, ops), lot)
    decreases |ops|
  {
    if ops == [] {
      GridZero(lot);
    } else {
      hide Did, SameBooks, GridOp, Owned, GridLoop;
      var front, op := ops[..|ops| - 1], ops[|ops| - 1];
      RunKeepsGrid(c, front, lot);
      BooksStayTheSame(c, front);
      RunKeepsOwned(c, front);
      OpKeepsGrid(c, After(c, front), op, lot);
    }
  }

  /** In every run at safe prices whose depths and quoted quantities are whole numbers of
      lots, tracker, simulator and dashboard agree. */
  lemma AccountingsAgreeInRuns(c: Config, ops: seq<Op>, lot: real)
    requires SafeRun(c, ops) && GridRun(ops, lot)
    ensures AllAgree(After(c, ops))
  {
    assert lot >= EPS;
    hide SafeRun, GridRun, GridPending, AllAgree, Bounded, OnGrid, After;
    RunsStayOk(c, ops, true);
    RunKeepsGrid(c, ops, lot);
    AgreeOnGridFills(c, ops, lot);
  }
}
