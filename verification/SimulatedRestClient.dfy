/** The in-process exchange of the backtest: resting orders, fills against the last book,
    and its own average-cost account. */
module Simulator {
  import opened Fills

  datatype Pending = Pending(oid: int, side: int, qty: real, price: real, executed: real)

  datatype Book = Book(bid: real, ask: real, bidQty: real, askQty: real, ts: int)

  datatype Account = Account(inv: real, entry: real)

  datatype Sim = Sim(pending: map<int, Pending>, oidSeq: int, fillCount: nat, book: Book, account: Account)

  const START := Sim(map[], 1000, 0, Book(0.0, 0.0, 0.0, 0.0, 0), Account(0.0, 0.0))

  datatype OrderAck = OrderAck(ok: bool, oid: int)

  // ---- The account ----

  function Booked(a: Account, s: real, price: real): Account {
    var newInv := a.inv + s;
    var entry :=
      if Abs(a.inv) < EPS then price
      else if (a.inv > 0.0 && s > 0.0) || (a.inv < 0.0 && s < 0.0) then
        Average(Abs(a.inv), a.entry, Abs(s), price)
      else if Abs(newInv) >= EPS && ((a.inv > 0.0 && newInv < 0.0) || (a.inv < 0.0 && newInv > 0.0)) then price
      else a.entry;
    Account(newInv, entry)
  }

  function BookedAll(a: Account, fills: seq<Fill>): Account {
    if fills == [] then a
    else
      var f := fills[|fills| - 1];
      Booked(BookedAll(a, fills[..|fills| - 1]), Signed(f), f.price)
  }

  // ---- Scanning resting orders for fills ----

  function Remaining(p: Pending): real {
    p.qty - p.executed
  }

  predicate Crossed(b: Book, p: Pending) {
    if p.side > 0 then b.ask <= p.price else b.bid >= p.price
  }

  function FillQty(b: Book, p: Pending): real {
    var avail := if p.side > 0 then b.askQty else b.bidQty;
    Min(Remaining(p), if avail < 0.0 then 0.0 else avail)
  }

  /** A scan under way: the simulator, the fills emitted, and the orders to erase. */
  datatype Scan = Scan(sim: Sim, fills: seq<Fill>, done: set<int>)

  function Visit(s: Scan, cid: int): Scan {
    if cid !in s.sim.pending then s
    else
      var p := s.sim.pending[cid];
      if Remaining(p) <= 0.0 then s.(done := s.done + {cid})
      else if !Crossed(s.sim.book, p) || FillQty(s.sim.book, p) <= 0.0 then s
      else
        var q := FillQty(s.sim.book, p);
        var p' := p.(executed := p.executed + q);
        Scan(s.sim.(pending := s.sim.pending[cid := p'], fillCount := s.sim.fillCount + 1,
                    account := Booked(s.sim.account, if p.side > 0 then q else -q, p.price)),
             s.fills + [Fill(cid, p.side, p.price, q, 0.0, s.sim.book.ts)],
             if p'.executed >= p'.qty - EPS then s.done + {cid} else s.done)
  }

  function VisitAll(s: Scan, cids: seq<int>): Scan {
    if cids == [] then s else Visit(VisitAll(s, cids[..|cids| - 1]), cids[|cids| - 1])
  }

  predicate Quoted(b: Book) {
    b.bid > 0.0 && b.ask > 0.0
  }

  /** `order` is the order in which the hash table of resting orders is walked. */
  function Scanned(sim: Sim, order: seq<int>): (Sim, seq<Fill>) {
    if !Quoted(sim.book) then (sim, [])
    else
      var s := VisitAll(Scan(sim, [], {}), order);
      (s.sim.(pending := s.sim.pending - s.done), s.fills)
  }

  function Placed(sim: Sim, side: int, qty: real, price: real, cid: int, order: seq<int>): (Sim, seq<Fill>) {
    var oid := sim.oidSeq + 1;
    Scanned(sim.(oidSeq := oid, pending := sim.pending[cid := Pending(oid, side, qty, price, 0.0)]), order)
  }

  function MarketPrice(sim: Sim, side: int): real {
    if side > 0 then sim.book.ask else sim.book.bid
  }

  function MarketPlaced(sim: Sim, side: int, qty: real, cid: int): (bool, Sim, seq<Fill>) {
    var px := MarketPrice(sim, side);
    var sim' := sim.(oidSeq := sim.oidSeq + 1);
    if px <= 0.0 || qty <= 0.0 then (false, sim', [])
    else
      (true,
       sim'.(account := Booked(sim.account, if side > 0 then qty else -qty, px), fillCount := sim.fillCount + 1),
       [Fill(cid, side, px, qty, 0.0, sim.book.ts)])
  }

  function Cancelled(sim: Sim, cid: int): Sim {
    sim.(pending := sim.pending - {cid})
  }

  function MarketMoved(sim: Sim, book: Book, order: seq<int>): (Sim, seq<Fill>) {
    Scanned(sim.(book := book), order)
  }

  // ---- The class ----

  class SimulatedRestClient {
    var pending: map<int, Pending>
    var oidSeq: int
    var fillCount: nat
    var book: Book
    var inv: real
    var entry: real

    function State(): Sim
      reads this
    {
      Sim(pending, oidSeq, fillCount, book, Account(inv, entry))
    }

    constructor ()
      ensures State() == START
    {
      pending, oidSeq, fillCount := map[], 1000, 0;
      book := Book(0.0, 0.0, 0.0, 0.0, 0);
      inv, entry := 0.0, 0.0;
    }

    method ApplyInvFill(signedQty: real, fillPrice: real)
      modifies this`inv, this`entry
      ensures State() == old(State()).(account := Booked(old(State()).account, signedQty, fillPrice))
    {
      hide Average;
      var newInv := inv + signedQty;
      if Abs(inv) < EPS {
        entry := fillPrice;
      } else if (inv > 0.0 && signedQty > 0.0) || (inv < 0.0 && signedQty < 0.0) {
        entry := Average(Abs(inv), entry, Abs(signedQty), fillPrice);
      } else if Abs(newInv) >= EPS && ((inv > 0.0 && newInv < 0.0) || (inv < 0.0 && newInv > 0.0)) {
        entry := fillPrice;
      }
      inv := newInv;
    }

    method VisitOrder(cid: int, fills: seq<Fill>, done: set<int>)
      returns (fills': seq<Fill>, done': set<int>)
      modifies this
      ensures Scan(State(), fills', done') == Visit(Scan(old(State()), fills, done), cid)
    {
      fills', done' := fills, done;
      if cid !in pending {
        return;
      }
      var p := pending[cid];
      var remaining := p.qty - p.executed;
      if remaining <= 0.0 {
        done' := done + {cid};
        return;
      }
      var crossed, avail := false, 0.0;
      if p.side > 0 {
        if book.ask <= p.price {
          crossed, avail := true, book.askQty;
        }
      } else {
        if book.bid >= p.price {
          crossed, avail := true, book.bidQty;
        }
      }
      if !crossed {
        return;
      }
      var fillQty := Min(remaining, if avail < 0.0 then 0.0 else avail);
      if fillQty <= 0.0 {
        return;
      }
      pending := pending[cid := p.(executed := p.executed + fillQty)];
      fillCount := fillCount + 1;
      ApplyInvFill(if p.side > 0 then fillQty else -fillQty, p.price);
      fills' := fills + [Fill(cid, p.side, p.price, fillQty, 0.0, book.ts)];
      if pending[cid].executed >= pending[cid].qty - EPS {
        done' := done + {cid};
      }
    }

    method ScanFills(order: seq<int>) returns (fills: seq<Fill>)
      requires multiset(order) == multiset(pending.Keys)
      modifies this
      ensures (State(), fills) == Scanned(old(State()), order)
    {
      fills := [];
      if book.bid <= 0.0 || book.ask <= 0.0 {
        return;
      }
      var done: set<int> := {};
      for i := 0 to |order|
        invariant Scan(State(), fills, done) == VisitAll(Scan(old(State()), [], {}), order[..i])
      {
        assert order[..i + 1][..i] == order[..i];
        fills, done := VisitOrder(order[i], fills, done);
      }
      assert order[..|order|] == order;
      pending := pending - done;
    }

    method PlaceOrder(side: int, qty: real, price: real, cid: int, order: seq<int>)
      returns (ack: OrderAck, fills: seq<Fill>)
      requires multiset(order) == multiset(pending.Keys + {cid})
      modifies this
      ensures ack == OrderAck(true, old(oidSeq) + 1)
      ensures (State(), fills) == Placed(old(State()), side, qty, price, cid, order)
    {
      oidSeq := oidSeq + 1;
      ack := OrderAck(true, oidSeq);
      pending := pending[cid := Pending(oidSeq, side, qty, price, 0.0)];
      fills := ScanFills(order);
    }

    method PlaceMarketOrder(side: int, qty: real, cid: int) returns (ok: bool, fills: seq<Fill>)
      modifies this
      ensures (ok, State(), fills) == MarketPlaced(old(State()), side, qty, cid)
    {
      oidSeq := oidSeq + 1;
      var px := if side > 0 then book.ask else book.bid;
      if px <= 0.0 || qty <= 0.0 {
        return false, [];
      }
      fills := [Fill(cid, side, px, qty, 0.0, book.ts)];
      ApplyInvFill(if side > 0 then qty else -qty, px);
      fillCount := fillCount + 1;
      ok := true;
    }

    /** Always accepted: an order that no longer rests counts as cancelled. */
    method CancelOrder(cid: int) returns (ok: bool)
      modifies this`pending
      ensures ok && State() == Cancelled(old(State()), cid)
    {
      if cid in pending {
        pending := pending - {cid};
      }
      ok := true;
      assert old(pending) - {cid} == pending;
    }

    method UpdateMarket(newBook: Book, order: seq<int>) returns (fills: seq<Fill>)
      requires multiset(order) == multiset(pending.Keys)
      modifies this
      ensures (State(), fills) == MarketMoved(old(State()), newBook, order)
    {
      book := newBook;
      fills := ScanFills(order);
    }
  }

  // ---- What a scan does ----

  /** The account books exactly the fills handed out. */
  lemma {:induction false} ScanBooksItsFills(s: Scan, order: seq<int>)
    requires s.fills == []
    ensures VisitAll(s, order).sim.account == BookedAll(s.sim.account, VisitAll(s, order).fills)
    decreases |order|
  {
    if order == [] {
    } else {
      hide Booked;
      ScanBooksItsFills(s, order[..|order| - 1]);
      var t := VisitAll(s, order[..|order| - 1]);
      var t' := Visit(t, order[|order| - 1]);
      if t'.fills != t.fills {
        assert t'.fills[..|t.fills|] == t.fills;
      }
    }
  }

  // ---- When an order fills ----

  /** The fills of one order, in order. */
  function FillsOf(fills: seq<Fill>, cid: int): seq<Fill> {
    if fills == [] then []
    else
      var front, f := FillsOf(fills[..|fills| - 1], cid), fills[|fills| - 1];
      if f.cid == cid then front + [f] else front
  }

  lemma FillsOfPush(fills: seq<Fill>, f: Fill, cid: int)
    ensures FillsOf(fills + [f], cid) == if f.cid == cid then FillsOf(fills, cid) + [f] else FillsOf(fills, cid)
  {
    assert (fills + [f])[..|fills|] == fills;
  }

  /** A buy meets the ask, a sell the bid, when the price reaches it and there is depth. */
  predicate Reached(b: Book, p: Pending) {
    if p.side > 0 then b.ask <= p.price && b.askQty > 0.0 else b.bid >= p.price && b.bidQty > 0.0
  }

  /** The smaller of what is left and the depth on the other side. */
  predicate Smaller(q: real, b: Book, p: Pending) {
    var left, depth := p.qty - p.executed, if p.side > 0 then b.askQty else b.bidQty;
    q <= left && q <= depth && (q == left || q == depth)
  }

  /** What a scan against book `b` owes an order that rested as `p` before it. */
  ghost predicate Served(b: Book, p: Pending, after: map<int, Pending>, fills: seq<Fill>, cid: int) {
    var left := p.qty - p.executed;
    if left <= 0.0 then FillsOf(fills, cid) == [] && cid !in after
    else if !Reached(b, p) then FillsOf(fills, cid) == [] && cid in after && after[cid] == p
    else
      exists q ::
        && Smaller(q, b, p)
        && FillsOf(fills, cid) == [Fill(cid, p.side, p.price, q, 0.0, b.ts)]
        && (cid in after <==> left - q > EPS)
        && (cid in after ==> after[cid] == Pending(p.oid, p.side, p.qty, p.price, p.executed + q))
  }

  ghost predicate Distinct(cids: seq<int>) {
    forall i, j :: 0 <= i < j < |cids| ==> cids[i] != cids[j]
  }

  ghost predicate Untouched(s: Scan, t: Scan, cid: int) {
    && (cid in t.sim.pending <==> cid in s.sim.pending)
    && (cid in s.sim.pending ==> t.sim.pending[cid] == s.sim.pending[cid])
    && FillsOf(t.fills, cid) == FillsOf(s.fills, cid)
    && (cid in t.done <==> cid in s.done)
  }

  lemma VisitOther(s: Scan, x: int, cid: int)
    requires x != cid
    ensures Untouched(s, Visit(s, x), cid) && Visit(s, x).sim.book == s.sim.book
  {
    hide Booked, Crossed, FillQty;
    var t := Visit(s, x);
    if t.fills != s.fills {
      FillsOfPush(s.fills, t.fills[|s.fills|], cid);
    }
  }

  lemma VisitSelf(s: Scan, cid: int)
    requires cid in s.sim.pending && cid !in s.done && FillsOf(s.fills, cid) == []
    ensures var t := Visit(s, cid);
            Served(s.sim.book, s.sim.pending[cid], t.sim.pending - t.done, t.fills, cid) && t.sim.book == s.sim.book
  {
    hide Booked, FillsOf;
    var t, p := Visit(s, cid), s.sim.pending[cid];
    if t.fills != s.fills {
      var q := FillQty(s.sim.book, p);
      FillsOfPush(s.fills, t.fills[|s.fills|], cid);
      assert Smaller(q, s.sim.book, p);
    }
  }

  lemma ServedStays(b: Book, p: Pending, s: Scan, t: Scan, cid: int)
    requires Untouched(s, t, cid) && Served(b, p, s.sim.pending - s.done, s.fills, cid)
    ensures Served(b, p, t.sim.pending - t.done, t.fills, cid)
  {}

  /** Before its turn an order is untouched; its turn serves it; afterwards nothing changes. */
  lemma {:induction false} VisitAllServes(sim: Sim, order: seq<int>, cid: int)
    requires Distinct(order)
    ensures var t := VisitAll(Scan(sim, [], {}), order);
            && t.sim.book == sim.book
            && (cid !in order ==> Untouched(Scan(sim, [], {}), t, cid))
            && (cid in order && cid in sim.pending ==>
                  Served(sim.book, sim.pending[cid], t.sim.pending - t.done, t.fills, cid))
    decreases |order|
  {
    if order == [] {
    } else {
      var front, x := order[..|order| - 1], order[|order| - 1];
      var s := VisitAll(Scan(sim, [], {}), front);
      VisitAllServes(sim, front, cid);
      assert order == front + [x];
      hide Visit, Served;
      if x == cid {
        assert cid !in front;
        if cid in sim.pending {
          VisitSelf(s, cid);
        }
      } else {
        VisitOther(s, x, cid);
        if cid in front && cid in sim.pending {
          ServedStays(sim.book, sim.pending[cid], s, Visit(s, x), cid);
        }
      }
    }
  }

  lemma VisitForeign(s: Scan, cid: int)
    ensures Visit(s, cid).sim.pending.Keys == s.sim.pending.Keys
    ensures forall f :: f in Visit(s, cid).fills ==> f in s.fills || f.cid in s.sim.pending
  {
    hide Booked, Crossed, FillQty;
  }

  lemma {:induction false} VisitAllForeign(s: Scan, order: seq<int>)
    ensures VisitAll(s, order).sim.pending.Keys == s.sim.pending.Keys
    ensures forall f :: f in VisitAll(s, order).fills ==> f in s.fills || f.cid in s.sim.pending
    decreases |order|
  {
    if order == [] {
    } else {
      VisitAllForeign(s, order[..|order| - 1]);
      VisitForeign(VisitAll(s, order[..|order| - 1]), order[|order| - 1]);
      hide Visit;
    }
  }

  /** A walk over a set of ids meets each of them once. */
  lemma WalkIsDistinct(order: seq<int>, ids: set<int>)
    requires multiset(order) == multiset(ids)
    ensures Distinct(order) && forall x :: x in order <==> x in ids
  {
    forall x ensures x in order <==> x in ids {
      assert x in multiset(order) <==> x in multiset(ids);
    }
    forall i, j | 0 <= i < j < |order| ensures order[i] != order[j] {
      assert order == order[..i] + [order[i]] + order[i + 1..];
      assert order[j] == order[i + 1..][j - i - 1];
      assert order[j] in multiset(order[i + 1..]);
      assert multiset(order)[order[i]] <= 1;
    }
  }

  /** A scan of a quoted book: each resting order with something left gets exactly one fill,
      at its own price, of the smaller of what is left and the depth it meets, if its price
      reaches the other side and there is depth, and otherwise none; it goes on resting
      unless nothing is left; and nothing else fills. Without both quotes nothing happens. */
  lemma ScanServes(sim: Sim, order: seq<int>, cid: int)
    requires Distinct(order) && (forall x :: x in order <==> x in sim.pending)
    ensures var (after, fills) := Scanned(sim, order);
            && after.book == sim.book
            && (forall f :: f in fills ==> f.cid in sim.pending)
            && (forall x :: x in after.pending ==> x in sim.pending)
            && (sim.book.bid <= 0.0 || sim.book.ask <= 0.0 ==> after == sim && fills == [])
            && (sim.book.bid > 0.0 && sim.book.ask > 0.0 && cid in sim.pending ==>
                  Served(sim.book, sim.pending[cid], after.pending, fills, cid))
  {
    VisitAllServes(sim, order, cid);
    VisitAllForeign(Scan(sim, [], {}), order);
    hide VisitAll, Served;
  }

  /** A market buy fills at the ask and a market sell at the bid, whole and at once, exactly
      when there is a quantity and that price. */
  lemma MarketFills(sim: Sim, side: int, qty: real, cid: int)
    requires side == 1 || side == -1
    ensures var (ok, after, fills) := MarketPlaced(sim, side, qty, cid);
            && (ok <==> qty > 0.0 && (if side == 1 then sim.book.ask > 0.0 else sim.book.bid > 0.0))
            && fills == (if !ok then []
                         else if side == 1 then [Fill(cid, 1, sim.book.ask, qty, 0.0, sim.book.ts)]
                         else [Fill(cid, -1, sim.book.bid, qty, 0.0, sim.book.ts)])
            && after.pending == sim.pending && after.book == sim.book
            && after.account.inv == (if !ok then sim.account.inv
                                     else if side == 1 then sim.account.inv + qty else sim.account.inv - qty)
  {
    hide Average;
  }
}
