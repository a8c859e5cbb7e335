/** Fills, and the tolerance and lot grid every accounting shares. */
module Fills {
  const EPS: real := 0.000000000001

  datatype Fill = Fill(cid: int, side: int, price: real, qty: real, fee: real, ts: int)

  function Abs(x: real): real {
    if x < 0.0 then -x else x
  }

  function Min(x: real, y: real): real {
    if x <= y then x else y
  }

  function Max0(x: real): real {
    if x < 0.0 then 0.0 else x
  }

  /** Quantity with the sign of its side (a valid side is +1 or -1). */
  function Signed(f: Fill): real {
    if f.side > 0 then f.qty else -f.qty
  }

  /** Average entry price once `added` at `price` joins `held` at `entry`. */
  function Average(held: real, entry: real, added: real, price: real): real {
    if held + added == 0.0 then entry else (held * entry + added * price) / (held + added)
  }

  /** Profit of closing `qty` of a position in direction `dir` entered at `entry`. */
  function Gain(dir: real, qty: real, price: real, entry: real): real {
    dir * qty * (price - entry)
  }

  /** What the tracker accepts. */
  predicate Valid(f: Fill) {
    f.qty > 0.0 && (f.side == 1 || f.side == -1) && f.price > 0.0
  }

  function Lots(k: int, lot: real): real {
    k as real * lot
  }

  /** x is a whole number of lots. */
  ghost predicate OnGrid(x: real, lot: real) {
    exists k: int :: x == Lots(k, lot)
  }

  lemma GridSum(x: real, y: real, lot: real)
    requires OnGrid(x, lot) && OnGrid(y, lot)
    ensures OnGrid(x + y, lot) && OnGrid(x - y, lot)
  {
    var j: int :| x == Lots(j, lot);
    var k: int :| y == Lots(k, lot);
    assert x + y == Lots(j + k, lot);
    assert x - y == Lots(j - k, lot);
  }

  lemma GridZero(lot: real)
    ensures OnGrid(0.0, lot)
  {
    assert 0.0 == Lots(0, lot);
  }

  lemma LotMultiple(k: int, lot: real)
    requires lot > 0.0
    ensures k >= 1 ==> Lots(k, lot) >= lot
    ensures k <= -1 ==> Lots(k, lot) <= -lot
  {
    if k >= 1 {
      assert (k as real - 1.0) * lot >= 0.0;
    } else if k <= -1 {
      assert (k as real + 1.0) * lot <= 0.0;
    }
  }

  /** On the grid the tolerance tests are exact. */
  lemma GridGap(x: real, lot: real)
    requires OnGrid(x, lot) && lot >= EPS
    ensures Abs(x) < EPS <==> x == 0.0
  {
    var k: int :| x == Lots(k, lot);
    LotMultiple(k, lot);
  }

  ghost predicate GridFills(fills: seq<Fill>, lot: real) {
    lot >= EPS && forall f :: f in fills ==> Valid(f) && OnGrid(f.qty, lot)
  }

  // ---- The ledger: net quantity and cash of a list of fills ----

  function NetQty(fills: seq<Fill>): real {
    if fills == [] then 0.0 else NetQty(fills[..|fills| - 1]) + Signed(fills[|fills| - 1])
  }

  function Cost(f: Fill): real {
    Signed(f) * f.price
  }

  function Cash(fills: seq<Fill>): real {
    if fills == [] then 0.0 else Cash(fills[..|fills| - 1]) - Cost(fills[|fills| - 1])
  }

  function Without(fills: seq<Fill>, i: nat): seq<Fill>
    requires i < |fills|
  {
    fills[..i] + fills[i + 1..]
  }

  lemma {:induction false} LedgerRemove(fills: seq<Fill>, i: nat)
    requires i < |fills|
    ensures NetQty(fills) == NetQty(Without(fills, i)) + Signed(fills[i])
    ensures Cash(fills) == Cash(Without(fills, i)) - Cost(fills[i])
    decreases |fills|
  {
    var n := |fills| - 1;
    var rest := Without(fills, i);
    if i == n {
      assert rest == fills[..n];
    } else {
      LedgerRemove(fills[..n], i);
      assert rest[..n - 1] == Without(fills[..n], i);
      assert rest[n - 1] == fills[n];
    }
  }

  lemma RemoveOne(fills: seq<Fill>, i: nat)
    requires i < |fills|
    ensures multiset(Without(fills, i)) == multiset(fills) - multiset{fills[i]}
  {
    assert fills == fills[..i] + [fills[i]] + fills[i + 1..];
  }

  /** The ledger does not depend on the order of the fills. */
  lemma {:induction false} LedgerPermutes(a: seq<Fill>, b: seq<Fill>)
    requires multiset(a) == multiset(b)
    ensures NetQty(a) == NetQty(b) && Cash(a) == Cash(b)
    decreases |a|
  {
    assert |a| == |b| by {
      assert |multiset(a)| == |multiset(b)|;
    }
    if |a| > 0 {
      var n := |a| - 1;
      assert a[n] in multiset(a);
      var i :| 0 <= i < |b| && b[i] == a[n];
      RemoveOne(a, n);
      RemoveOne(b, i);
      assert Without(a, n) == a[..n];
      LedgerPermutes(a[..n], Without(b, i));
      LedgerRemove(b, i);
    }
  }
}

/** Average-cost position accounting of the live engine. */
module PositionTracking {
  import opened Fills

  datatype Tracker = Tracker(inv: real, avgEntry: real, realized: real, fees: real, mid: real)

  const FLAT := Tracker(0.0, 0.0, 0.0, 0.0, 0.0)

  function AppliedValid(t: Tracker, f: Fill): Tracker
    requires Valid(f)
  {
    var s := Signed(f);
    var newInv := t.inv + s;
    var opening := Abs(t.inv) < EPS;
    var adding := (t.inv > 0.0 && s > 0.0) || (t.inv < 0.0 && s < 0.0);
    var close := Min(Abs(t.inv), Abs(s));
    var dir := if t.inv > 0.0 then 1.0 else -1.0;
    var delta := if opening || adding then 0.0 else Gain(dir, close, f.price, t.avgEntry);
    var newAvg :=
      if opening then f.price
      else if adding then Average(Abs(t.inv), t.avgEntry, Abs(s), f.price)
      else if Abs(s) > Abs(t.inv) then f.price
      else if newInv == 0.0 then 0.0
      else t.avgEntry;
    Tracker(newInv, newAvg, t.realized + delta, t.fees + f.fee, t.mid)
  }

  function Applied(t: Tracker, f: Fill): Tracker {
    if Valid(f) then AppliedValid(t, f) else t
  }

  function Unrealized(t: Tracker): real {
    if t.inv == 0.0 || t.mid <= 0.0 then 0.0 else t.inv * (t.mid - t.avgEntry)
  }

  function Equity(t: Tracker): real {
    t.realized + Unrealized(t)
  }

  class PositionTracker {
    var inventory: real
    var avgEntry: real
    var realizedPnl: real
    var totalFees: real
    var lastMid: real

    function State(): Tracker
      reads this
    {
      Tracker(inventory, avgEntry, realizedPnl, totalFees, lastMid)
    }

    constructor ()
      ensures State() == FLAT
    {
      inventory, avgEntry, realizedPnl, totalFees, lastMid := 0.0, 0.0, 0.0, 0.0, 0.0;
    }

    method ApplyFill(f: Fill) returns (ok: bool)
      modifies this
      ensures ok == Valid(f)
      ensures State() == Applied(old(State()), f)
    {
      hide Average, Gain;
      if f.qty <= 0.0 || (f.side != 1 && f.side != -1) || f.price <= 0.0 {
        return false;
      }
      var signedQty := Signed(f);
      var inv, ae := inventory, avgEntry;
      var newInv, newAe, realizedDelta := inv + signedQty, ae, 0.0;
      if Abs(inv) < EPS {
        newAe := f.price;
      } else if (inv > 0.0 && signedQty > 0.0) || (inv < 0.0 && signedQty < 0.0) {
        newAe := Average(Abs(inv), ae, Abs(signedQty), f.price);
      } else {
        var closeQty := Min(Abs(inv), Abs(signedQty));
        var dir := if inv > 0.0 then 1.0 else -1.0;
        realizedDelta := Gain(dir, closeQty, f.price, ae);
        if Abs(signedQty) > Abs(inv) {
          newAe := f.price;
        } else if newInv == 0.0 {
          newAe := 0.0;
        }
      }
      if realizedDelta != 0.0 {
        realizedPnl := realizedPnl + realizedDelta;
      }
      totalFees := totalFees + f.fee;
      inventory := newInv;
      avgEntry := newAe;
      return true;
    }

    method UpdateMid(mid: real)
      modifies this`lastMid
      ensures State() == old(State()).(mid := if mid > 0.0 then mid else old(lastMid))
    {
      if mid > 0.0 {
        lastMid := mid;
      }
    }
  }

  // ---- Conservation ----

  /** Realized profit less the cost of the open position. */
  function Book(t: Tracker): real {
    t.realized - t.inv * t.avgEntry
  }

  /** What one fill adds to the books beyond its own cash: only a fill on a position that
      is open but below the tolerance, whose entry price is simply overwritten. */
  function Drift(t: Tracker, f: Fill): real {
    if Abs(t.inv) < EPS then t.inv * (t.avgEntry - f.price) else 0.0
  }

  lemma WeightedAverage(x: real, a: real, y: real, b: real)
    requires x + y != 0.0
    ensures (x + y) * ((x * a + y * b) / (x + y)) == x * a + y * b
  {}

  lemma Distribute(x: real, y: real, z: real)
    ensures (x + y) * z == x * z + y * z
    ensures x * (y - z) == x * y - x * z
  {}

  lemma AverageIs(held: real, entry: real, added: real, price: real)
    requires held + added != 0.0
    ensures (held + added) * Average(held, entry, added, price) == held * entry + added * price
  {
    WeightedAverage(held, entry, added, price);
  }

  lemma GainIs(long: bool, qty: real, price: real, entry: real)
    ensures Gain(if long then 1.0 else -1.0, qty, price, entry) ==
            if long then qty * (price - entry) else -(qty * (price - entry))
  {}

  lemma AddConserves(i: real, a: real, s: real, p: real)
    requires (i > 0.0 && s > 0.0) || (i < 0.0 && s < 0.0)
    ensures (i + s) * Average(Abs(i), a, Abs(s), p) == i * a + s * p
  {
    var avg := Average(Abs(i), a, Abs(s), p);
    WeightedAverage(Abs(i), a, Abs(s), p);
    if i < 0.0 {
      assert (i + s) * avg == -((Abs(i) + Abs(s)) * avg);
    }
  }

  lemma ReduceGain(i: real, s: real, p: real, a: real)
    requires (i > 0.0 && s < 0.0) || (i < 0.0 && s > 0.0)
    ensures var close := if Abs(s) > Abs(i) then i else -s;
            Gain(if i > 0.0 then 1.0 else -1.0, Min(Abs(i), Abs(s)), p, a) == close * p - close * a
  {}

  /** One fill moves the books by exactly its cash, up to the drift. */
  lemma FillConserves(t: Tracker, f: Fill)
    requires Valid(f)
    ensures Applied(t, f).inv == t.inv + Signed(f)
    ensures Book(Applied(t, f)) == Book(t) - Cost(f) + Drift(t, f)
  {
    hide Average, Gain;
    var s, p, a, i := Signed(f), f.price, t.avgEntry, t.inv;
    Distribute(i, s, p);
    Distribute(i, s, a);
    Distribute(i, a, p);
    if Abs(i) < EPS {
    } else if (i > 0.0 && s > 0.0) || (i < 0.0 && s < 0.0) {
      AddConserves(i, a, s, p);
    } else {
      ReduceGain(i, s, p, a);
    }
  }

  /** A malformed fill changes nothing; any other moves the inventory by its quantity. The
      entry price is the fill's when nothing was held or the position turned over, the
      weighted average when the position grew, and unchanged while it shrinks; and only what
      is closed is realized, at the difference from the entry. */
  lemma FillOutcome(t: Tracker, f: Fill)
    ensures f.qty <= 0.0 || f.price <= 0.0 || (f.side != 1 && f.side != -1) ==> Applied(t, f) == t
    ensures f.qty > 0.0 && f.price > 0.0 && (f.side == 1 || f.side == -1) ==>
              var t', held := Applied(t, f), if t.inv > 0.0 then t.inv else -t.inv;
              var grows := if f.side == 1 then t.inv > 0.0 else t.inv < 0.0;
              && t'.inv == (if f.side == 1 then t.inv + f.qty else t.inv - f.qty)
              && t'.fees == t.fees + f.fee && t'.mid == t.mid
              && if held < 0.000000000001 then t'.avgEntry == f.price && t'.realized == t.realized
                 else if grows then
                   && t'.realized == t.realized
                   && (held + f.qty) * t'.avgEntry == held * t.avgEntry + f.qty * f.price
                 else
                   var closed := if f.qty < held then f.qty else held;
                   && t'.realized == t.realized + (if t.inv > 0.0 then closed * (f.price - t.avgEntry)
                                                   else -(closed * (f.price - t.avgEntry)))
                   && t'.avgEntry == (if f.qty > held then f.price else if f.qty == held then 0.0 else t.avgEntry)
  {
    hide Average, Gain;
    if Valid(f) {
      var held, grows := Abs(t.inv), if f.side == 1 then t.inv > 0.0 else t.inv < 0.0;
      if held < EPS {
      } else if grows {
        AverageIs(held, t.avgEntry, f.qty, f.price);
      } else {
        GainIs(t.inv > 0.0, Min(held, f.qty), f.price, t.avgEntry);
      }
    }
  }

  /** The tolerance times the price gap, at a fill that lands on a position that is open
      but below the tolerance. */
  function Allowance(t: Tracker, f: Fill): real {
    if Abs(t.inv) < EPS && t.inv != 0.0 then EPS * Abs(f.price - t.avgEntry) else 0.0
  }

  lemma ScaleNegate(x: real, d: real)
    ensures x * (-d) == -(x * d) && (-x) * d == -(x * d)
  {}

  lemma ScaleMonotone(x: real, y: real, d: real)
    requires x <= y && d >= 0.0
    ensures x * d <= y * d
  {}

  lemma ScaleWithin(x: real, m: real)
    requires -EPS <= x <= EPS && m >= 0.0
    ensures -(EPS * m) <= x * m <= EPS * m
  {
    ScaleMonotone(x, EPS, m);
    ScaleMonotone(-EPS, x, m);
  }

  lemma ScaleBound(x: real, d: real)
    requires Abs(x) < EPS
    ensures Abs(x * d) <= EPS * Abs(d)
  {
    if d < 0.0 {
      ScaleWithin(x, -d);
      ScaleNegate(x, d);
    } else {
      ScaleWithin(x, d);
    }
  }

  lemma DriftBound(t: Tracker, f: Fill)
    ensures Abs(Drift(t, f)) <= Allowance(t, f)
  {
    if Abs(t.inv) < EPS {
      ScaleBound(t.inv, t.avgEntry - f.price);
    }
  }

  function AppliedAll(t: Tracker, fills: seq<Fill>): Tracker {
    if fills == [] then t
    else Applied(AppliedAll(t, fills[..|fills| - 1]), fills[|fills| - 1])
  }

  /** The drift a list of fills can cause. */
  function DriftAllowance(fills: seq<Fill>): real {
    if fills == [] then 0.0
    else
      var front, f := fills[..|fills| - 1], fills[|fills| - 1];
      DriftAllowance(front) + if Valid(f) then Allowance(AppliedAll(FLAT, front), f) else 0.0
  }

  function Accepted(fills: seq<Fill>): seq<Fill> {
    if fills == [] then []
    else
      var front, f := fills[..|fills| - 1], fills[|fills| - 1];
      if Valid(f) then Accepted(front) + [f] else Accepted(front)
  }

  lemma BookFlat()
    ensures Book(FLAT) == 0.0
  {}

  /** For every list of fills, valid or not, on or off the lot grid: inventory is the net
      of the accepted ones, and the books differ from their cash by at most the tolerance
      times the price gap at each near-flat fill. */
  lemma {:induction false} BooksFollowCash(fills: seq<Fill>)
    ensures AppliedAll(FLAT, fills).inv == NetQty(Accepted(fills))
    ensures Abs(Book(AppliedAll(FLAT, fills)) - Cash(Accepted(fills))) <= DriftAllowance(fills)
    decreases |fills|
  {
    hide Book, Cost, Drift, Allowance, AppliedValid;
    if fills == [] {
      BookFlat();
    } else {
      var front, f := fills[..|fills| - 1], fills[|fills| - 1];
      BooksFollowCash(front);
      if Valid(f) {
        assert (Accepted(front) + [f])[..|Accepted(front)|] == Accepted(front);
        FillConserves(AppliedAll(FLAT, front), f);
        DriftBound(AppliedAll(FLAT, front), f);
      }
    }
  }

  lemma {:induction false} AcceptedAll(fills: seq<Fill>)
    requires forall f :: f in fills ==> Valid(f)
    ensures Accepted(fills) == fills
  {
    if fills == [] {
    } else {
      AcceptedAll(fills[..|fills| - 1]);
    }
  }

  lemma {:induction false} GridInventory(fills: seq<Fill>, lot: real)
    requires GridFills(fills, lot)
    ensures OnGrid(AppliedAll(FLAT, fills).inv, lot)
    ensures DriftAllowance(fills) == 0.0
    decreases |fills|
  {
    GridZero(lot);
    if fills == [] {
    } else {
      var front, f := fills[..|fills| - 1], fills[|fills| - 1];
      assert f in fills;
      GridInventory(front, lot);
      GridSum(AppliedAll(FLAT, front).inv, f.qty, lot);
      GridGap(AppliedAll(FLAT, front).inv, lot);
    }
  }

  /** On the lot grid the books are the cash ledger exactly. */
  lemma BooksAreCash(fills: seq<Fill>, lot: real)
    requires GridFills(fills, lot)
    ensures AppliedAll(FLAT, fills).inv == NetQty(fills)
    ensures Book(AppliedAll(FLAT, fills)) == Cash(fills)
  {
    hide Book, Cost, AppliedAll;
    AcceptedAll(fills);
    BooksFollowCash(fills);
    GridInventory(fills, lot);
  }

  /** Cash plus the position at its market value. */
  function Marked(cash: real, qty: real, mid: real): real {
    cash + qty * mid
  }

  lemma MarkToMarket(t: Tracker, mid: real)
    requires mid > 0.0
    ensures Equity(t.(mid := mid)) == Marked(Book(t), t.inv, mid)
  {
    Distribute(t.inv, mid, t.avgEntry);
    Distribute(0.0, mid, t.avgEntry);
    assert t.inv * (mid - t.avgEntry) == t.inv * mid - t.inv * t.avgEntry;
  }

  /** Equity is the cash ledger marked to market, and so the same for every order in which
      the fills could have arrived. */
  lemma EquityIsLedger(fills: seq<Fill>, other: seq<Fill>, mid: real, lot: real)
    requires GridFills(fills, lot) && multiset(fills) == multiset(other) && mid > 0.0
    ensures Equity(AppliedAll(FLAT, fills).(mid := mid)) == Marked(Cash(fills), NetQty(fills), mid)
    ensures Equity(AppliedAll(FLAT, other).(mid := mid)) == Equity(AppliedAll(FLAT, fills).(mid := mid))
  {
    hide Book, Cost, Equity, Unrealized, AppliedAll, Marked;
    forall f | f in other ensures f in fills {
      assert f in multiset(other);
    }
    LedgerPermutes(fills, other);
    BooksAreCash(fills, lot);
    BooksAreCash(other, lot);
    MarkToMarket(AppliedAll(FLAT, fills), mid);
    MarkToMarket(AppliedAll(FLAT, other), mid);
  }
}
