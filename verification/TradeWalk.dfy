/** The dashboard's walk over the day's trades, and the agreement of the three
    average-cost accountings. */
module TradeWalk {
  import opened Fills
  import opened PositionTracking
  import Simulator

  datatype Walk = Walk(pos: real, avg: real)

  function Sign(x: real): int {
    if x > 0.0 then 1 else if x < 0.0 then -1 else 0
  }

  /** Average entry price once `qty` at `price` joins `held` at `avg`. */
  function Blend(avg: real, held: real, price: real, qty: real): real {
    if held + qty > 0.0 then (avg * held + price * qty) / (held + qty) else 0.0
  }

  function TradeGain(dir: real, price: real, avg: real, closing: real): real {
    dir * (price - avg) * closing
  }

  /** The walk after a trade, and the profit reported for that trade. */
  function Step(w: Walk, t: Fill): (Walk, real) {
    var s := Signed(t);
    if w.pos != 0.0 && Sign(s) != Sign(w.pos) then
      var closing := Min(Abs(w.pos), t.qty);
      var dir := if w.pos > 0.0 then 1.0 else -1.0;
      var realized := -t.fee + TradeGain(dir, t.price, w.avg, closing);
      var remaining := Abs(w.pos) - closing;
      var leftover := t.qty - closing;
      if remaining != 0.0 then (Walk(dir * remaining, w.avg), realized)
      else if leftover > 0.0 then (Walk(if s > 0.0 then leftover else -leftover, t.price), realized)
      else (Walk(0.0, 0.0), realized)
    else
      (Walk(w.pos + s, Blend(w.avg, Abs(w.pos), t.price, t.qty)), -t.fee)
  }

  function WalkAfter(trades: seq<Fill>): Walk {
    if trades == [] then Walk(0.0, 0.0)
    else Step(WalkAfter(trades[..|trades| - 1]), trades[|trades| - 1]).0
  }

  function PerTrade(trades: seq<Fill>): seq<real> {
    if trades == [] then []
    else
      var front := trades[..|trades| - 1];
      PerTrade(front) + [Step(WalkAfter(front), trades[|trades| - 1]).1]
  }

  function Sum(xs: seq<real>): real {
    if xs == [] then 0.0 else Sum(xs[..|xs| - 1]) + xs[|xs| - 1]
  }

  // ---- Sorting by timestamp ----

  ghost predicate Sorted(trades: seq<Fill>) {
    forall i, j :: 0 <= i < j < |trades| ==> trades[i].ts <= trades[j].ts
  }

  ghost predicate StrictlySorted(trades: seq<Fill>) {
    forall i, j :: 0 <= i < j < |trades| ==> trades[i].ts < trades[j].ts
  }

  lemma DropLast(xs: seq<Fill>)
    requires xs != []
    ensures multiset(xs[..|xs| - 1]) == multiset(xs) - multiset{xs[|xs| - 1]}
  {
    assert xs == xs[..|xs| - 1] + [xs[|xs| - 1]];
  }

  lemma PrefixesSorted(happened: seq<Fill>, asc: seq<Fill>)
    requires StrictlySorted(happened) && Sorted(asc) && |asc| == |happened| > 0
    ensures StrictlySorted(happened[..|happened| - 1]) && Sorted(asc[..|asc| - 1])
  {}

  lemma SameLast(happened: seq<Fill>, asc: seq<Fill>)
    requires StrictlySorted(happened) && Sorted(asc) && multiset(asc) == multiset(happened)
    requires happened != [] && |asc| == |happened|
    ensures asc[|asc| - 1] == happened[|asc| - 1]
  {
    var n := |happened| - 1;
    assert happened[n] in multiset(asc);
    assert asc[n] in multiset(happened);
    var i :| 0 <= i <= n && asc[i] == happened[n];
    var j :| 0 <= j <= n && happened[j] == asc[n];
    assert asc[i].ts <= asc[n].ts;
  }

  lemma SameFront(happened: seq<Fill>, asc: seq<Fill>)
    requires StrictlySorted(happened) && Sorted(asc) && multiset(asc) == multiset(happened)
    requires happened != []
    ensures |asc| == |happened| && asc[|asc| - 1] == happened[|asc| - 1]
    ensures multiset(asc[..|asc| - 1]) == multiset(happened[..|asc| - 1])
  {
    assert |multiset(asc)| == |multiset(happened)|;
    SameLast(happened, asc);
    DropLast(happened);
    DropLast(asc);
  }

  lemma LastApart(a: seq<Fill>, b: seq<Fill>)
    requires |a| == |b| > 0 && a[..|a| - 1] == b[..|a| - 1] && a[|a| - 1] == b[|a| - 1]
    ensures a == b
  {
    assert a == a[..|a| - 1] + [a[|a| - 1]];
    assert b == b[..|a| - 1] + [b[|a| - 1]];
  }

  /** With distinct timestamps there is one sorted arrangement. */
  lemma {:induction false} SortedOnce(happened: seq<Fill>, asc: seq<Fill>)
    requires StrictlySorted(happened) && Sorted(asc) && multiset(asc) == multiset(happened)
    ensures asc == happened
    decreases |happened|
  {
    if happened == [] {
      assert |multiset(asc)| == 0;
    } else {
      var n := |happened| - 1;
      SameFront(happened, asc);
      PrefixesSorted(happened, asc);
      hide Sorted, StrictlySorted;
      SortedOnce(happened[..n], asc[..n]);
      LastApart(asc, happened);
    }
  }

  /** The trade goes behind everything that is not later. */
  function Inserted(asc: seq<Fill>, t: Fill): seq<Fill> {
    if asc == [] || asc[|asc| - 1].ts <= t.ts then asc + [t]
    else Inserted(asc[..|asc| - 1], t) + [asc[|asc| - 1]]
  }

  /** A copy in ascending order of time, equal times in the order in which they came. */
  function Ascending(trades: seq<Fill>): seq<Fill> {
    if trades == [] then [] else Inserted(Ascending(trades[..|trades| - 1]), trades[|trades| - 1])
  }

  /** The trades of one instant, in order. */
  function At(trades: seq<Fill>, ts: int): seq<Fill> {
    if trades == [] then []
    else
      var front, t := At(trades[..|trades| - 1], ts), trades[|trades| - 1];
      if t.ts == ts then front + [t] else front
  }

  lemma InsertedBelow(asc: seq<Fill>, t: Fill, ts: int)
    requires multiset(Inserted(asc, t)) == multiset(asc) + multiset{t}
    requires t.ts <= ts && forall i :: 0 <= i < |asc| ==> asc[i].ts <= ts
    ensures |Inserted(asc, t)| == |asc| + 1
    ensures forall i :: 0 <= i <= |asc| ==> Inserted(asc, t)[i].ts <= ts
  {
    assert |multiset(Inserted(asc, t))| == |asc| + 1;
    forall i | 0 <= i <= |asc| ensures Inserted(asc, t)[i].ts <= ts {
      assert Inserted(asc, t)[i] in multiset(Inserted(asc, t));
    }
  }

  lemma {:induction false} InsertedKeeps(asc: seq<Fill>, t: Fill)
    requires Sorted(asc)
    ensures Sorted(Inserted(asc, t)) && multiset(Inserted(asc, t)) == multiset(asc) + multiset{t}
    decreases |asc|
  {
    if asc == [] || asc[|asc| - 1].ts <= t.ts {
      assert Inserted(asc, t) == asc + [t];
      hide Inserted;
    } else {
      var front, last := asc[..|asc| - 1], asc[|asc| - 1];
      assert asc == front + [last] && Inserted(asc, t) == Inserted(front, t) + [last];
      hide Inserted;
      InsertedKeeps(front, t);
      InsertedBelow(front, t, last.ts);
    }
  }

  lemma AtPush(trades: seq<Fill>, t: Fill, ts: int)
    ensures At(trades + [t], ts) == if t.ts == ts then At(trades, ts) + [t] else At(trades, ts)
  {
    assert (trades + [t])[..|trades|] == trades;
  }

  /** Going in front of later trades changes no instant's order. */
  lemma {:induction false} InsertedStably(asc: seq<Fill>, t: Fill, ts: int)
    ensures At(Inserted(asc, t), ts) == At(asc + [t], ts)
    decreases |asc|
  {
    if asc == [] || asc[|asc| - 1].ts <= t.ts {
    } else {
      var front, last := asc[..|asc| - 1], asc[|asc| - 1];
      InsertedStably(front, t, ts);
      AtPush(Inserted(front, t), last, ts);
      AtPush(front, t, ts);
      AtPush(asc, t, ts);
    }
  }

  /** The sort is a stable sort: ascending, a permutation, and without swaps among equals. */
  lemma {:induction false} AscendingSorts(trades: seq<Fill>)
    ensures Sorted(Ascending(trades)) && multiset(Ascending(trades)) == multiset(trades)
    ensures forall ts :: At(Ascending(trades), ts) == At(trades, ts)
    decreases |trades|
  {
    if trades == [] {
    } else {
      var front, t := trades[..|trades| - 1], trades[|trades| - 1];
      AscendingSorts(front);
      InsertedKeeps(Ascending(front), t);
      assert trades == front + [t];
      hide Inserted, Sorted;
      forall ts ensures At(Ascending(trades), ts) == At(trades, ts) {
        InsertedStably(Ascending(front), t, ts);
        AtPush(Ascending(front), t, ts);
        AtPush(front, t, ts);
      }
    }
  }

  /** With distinct timestamps the walk sees the trades in the order in which they happened,
      whatever order they were served in. */
  lemma SortingRecovers(happened: seq<Fill>, served: seq<Fill>)
    requires StrictlySorted(happened) && multiset(served) == multiset(happened)
    ensures Ascending(served) == happened
  {
    AscendingSorts(served);
    SortedOnce(happened, Ascending(served));
  }

  method WalkTrade(pos: real, avg: real, t: Fill) returns (pos': real, avg': real, realized: real)
    ensures (Walk(pos', avg'), realized) == Step(Walk(pos, avg), t)
  {
    hide Blend, TradeGain;
    pos', avg' := pos, avg;
    var signed := if t.side > 0 then t.qty else -t.qty;
    realized := -t.fee;
    if pos != 0.0 && Sign(signed) != Sign(pos) {
      var closing := Min(Abs(pos), t.qty);
      var dir := if pos > 0.0 then 1.0 else -1.0;
      realized := realized + TradeGain(dir, t.price, avg, closing);
      var remaining := Abs(pos) - closing;
      if remaining == 0.0 {
        var leftover := t.qty - closing;
        if leftover > 0.0 {
          pos' := if signed > 0.0 then leftover else -leftover;
          avg' := t.price;
        } else {
          pos', avg' := 0.0, 0.0;
        }
      } else {
        pos' := dir * remaining;
      }
    } else {
      avg' := Blend(avg, Abs(pos), t.price, t.qty);
      pos' := pos + signed;
    }
  }

  method WalkAll(asc: seq<Fill>) returns (out: seq<(Fill, real)>)
    ensures |out| == |PerTrade(asc)| == |asc|
    ensures forall i :: 0 <= i < |asc| ==> out[i] == (asc[i], PerTrade(asc)[i])
  {
    hide Step;
    out := [];
    var pos, avg := 0.0, 0.0;
    for i := 0 to |asc|
      invariant Walk(pos, avg) == WalkAfter(asc[..i])
      invariant |out| == |PerTrade(asc[..i])| == i
      invariant forall j :: 0 <= j < i ==> out[j] == (asc[j], PerTrade(asc[..i])[j])
    {
      assert asc[..i + 1][..i] == asc[..i];
      var realized;
      pos, avg, realized := WalkTrade(pos, avg, asc[i]);
      out := out + [(asc[i], realized)];
    }
    assert asc[..|asc|] == asc;
  }

  /** Every trade with its result, in ascending order of time. */
  method PerTradeRealized(trades: seq<Fill>) returns (out: seq<(Fill, real)>)
    ensures |out| == |PerTrade(Ascending(trades))| == |Ascending(trades)| == |trades|
    ensures forall i :: 0 <= i < |out| ==> out[i] == (Ascending(trades)[i], PerTrade(Ascending(trades))[i])
  {
    var asc := Ascending(trades);
    AscendingSorts(trades);
    assert |multiset(asc)| == |multiset(trades)|;
    out := WalkAll(asc);
  }

  // ---- Agreement ----

  ghost predicate Agree(t: Tracker, a: Simulator.Account, w: Walk) {
    && t.inv == a.inv == w.pos
    && (t.inv != 0.0 ==> t.avgEntry == a.entry == w.avg)
  }

  lemma SameAverage(i: real, avg: real, qty: real, price: real)
    requires qty > 0.0
    ensures i == 0.0 ==> Blend(avg, 0.0, price, qty) == price
    ensures i != 0.0 ==> Blend(avg, Abs(i), price, qty) == Average(Abs(i), avg, qty, price)
  {
    if i == 0.0 {
      assert avg * 0.0 == 0.0;
      assert price * qty / qty == price;
    }
  }

  lemma SameGain(dir: real, close: real, price: real, avg: real)
    ensures Gain(dir, close, price, avg) == TradeGain(dir, price, avg, close)
  {}

  lemma OpenOrAddAgrees(t: Tracker, a: Simulator.Account, w: Walk, f: Fill)
    requires Agree(t, a, w) && Valid(f) && (Abs(t.inv) < EPS <==> t.inv == 0.0)
    requires t.inv == 0.0 || Sign(t.inv) == Sign(Signed(f))
    ensures Agree(Applied(t, f), Simulator.Booked(a, Signed(f), f.price), Step(w, f).0)
    ensures Step(w, f).1 == -f.fee && Applied(t, f).realized == t.realized
  {
    SameAverage(t.inv, w.avg, f.qty, f.price);
    hide Average, Blend, Gain, TradeGain;
  }

  lemma ReduceAgrees(t: Tracker, a: Simulator.Account, w: Walk, f: Fill)
    requires Agree(t, a, w) && Valid(f) && (Abs(t.inv) < EPS <==> t.inv == 0.0)
    requires Abs(t.inv + Signed(f)) < EPS <==> t.inv + Signed(f) == 0.0
    requires t.inv != 0.0 && Sign(t.inv) != Sign(Signed(f))
    ensures Agree(Applied(t, f), Simulator.Booked(a, Signed(f), f.price), Step(w, f).0)
    ensures Step(w, f).1 == -f.fee + Applied(t, f).realized - t.realized
  {
    SameGain(if t.inv > 0.0 then 1.0 else -1.0, Min(Abs(t.inv), f.qty), f.price, t.avgEntry);
    hide Average, Blend, Gain, TradeGain;
  }

  lemma FeeBooked(t: Tracker, f: Fill)
    ensures Valid(f) ==> Applied(t, f).fees == t.fees + f.fee
  {}

  /** One fill on the lot grid keeps the three accountings in step, and the profit the
      dashboard reports for it is what the tracker realized less the fee. */
  lemma FillKeepsAgreement(t: Tracker, a: Simulator.Account, w: Walk, f: Fill, lot: real)
    requires Agree(t, a, w) && Valid(f) && lot >= EPS && OnGrid(f.qty, lot) && OnGrid(t.inv, lot)
    ensures Agree(Applied(t, f), Simulator.Booked(a, Signed(f), f.price), Step(w, f).0)
    ensures Step(w, f).1 == (Applied(t, f).realized - t.realized) - (Applied(t, f).fees - t.fees)
  {
    GridGap(t.inv, lot);
    GridSum(t.inv, f.qty, lot);
    GridGap(t.inv + Signed(f), lot);
    FeeBooked(t, f);
    hide AppliedValid, Step, Simulator.Booked;
    if t.inv == 0.0 || Sign(t.inv) == Sign(Signed(f)) {
      OpenOrAddAgrees(t, a, w, f);
    } else {
      ReduceAgrees(t, a, w, f);
    }
  }

  lemma {:induction false} PerTradeLength(fills: seq<Fill>)
    ensures |PerTrade(fills)| == |fills|
  {
    hide Step;
    if fills == [] {
    } else {
      PerTradeLength(fills[..|fills| - 1]);
    }
  }

  /** Over any list of fills on the lot grid the tracker, the simulator and the dashboard
      agree on inventory and, while it is open, on entry price; and the profits reported
      trade by trade add up to realized profit less fees. */
  lemma {:induction false} AccountingsAgree(fills: seq<Fill>, lot: real)
    requires GridFills(fills, lot)
    ensures Agree(AppliedAll(FLAT, fills), Simulator.BookedAll(Simulator.START.account, fills), WalkAfter(fills))
    ensures Sum(PerTrade(fills)) == AppliedAll(FLAT, fills).realized - AppliedAll(FLAT, fills).fees
    decreases |fills|
  {
    hide AppliedValid, Applied, Step, Simulator.Booked;
    if fills == [] {
    } else {
      var n := |fills| - 1;
      assert fills[n] in fills;
      AccountingsAgree(fills[..n], lot);
      GridInventory(fills[..n], lot);
      FillKeepsAgreement(AppliedAll(FLAT, fills[..n]),
        Simulator.BookedAll(Simulator.START.account, fills[..n]), WalkAfter(fills[..n]), fills[n], lot);
      assert PerTrade(fills)[..n] == PerTrade(fills[..n]) by { PerTradeLength(fills[..n]); }
      PerTradeLength(fills[..n]);
    }
  }
}
