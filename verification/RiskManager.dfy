/** The pre-trade gate and its sliding windows. Times are milliseconds. */
module Risk {
  import opened Fills
  import opened PositionTracking

  const RATE_WINDOW := 60_000
  const REJECTION_WINDOW := 30_000

  datatype RiskResult =
    Approved | RejectedPosition | RejectedSize | RejectedPrice | RejectedRate | RejectedLoss | RejectedOpenOrders

  datatype Limits = Limits(maxPosition: real, maxOrderSize: real, priceSanityPct: real,
                           rateThreshold: int, maxDailyLoss: real, maxOpenOrders: int)

  datatype RiskState = RiskState(orderTimes: seq<int>, cancelTimes: seq<int>, rejectionTimes: seq<int>, openOrders: int)

  // ---- Windows ----

  function Pruned(times: seq<int>, cutoff: int): seq<int> {
    if times == [] || times[0] >= cutoff then times else Pruned(times[1..], cutoff)
  }

  function RecordedIn(bucket: seq<int>, now: int, window: int): seq<int> {
    Pruned(bucket, now - window) + [now]
  }

  method PruneFront(times: seq<int>, cutoff: int) returns (kept: seq<int>)
    ensures kept == Pruned(times, cutoff)
  {
    kept := times;
    while kept != [] && kept[0] < cutoff
      invariant Pruned(kept, cutoff) == Pruned(times, cutoff)
      decreases |kept|
    {
      kept := kept[1..];
    }
  }

  // ---- The gate ----

  predicate InsanePrice(l: Limits, price: real, mid: real) {
    mid > 0.0 && Abs(price - mid) / mid * 100.0 > l.priceSanityPct
  }

  function Rejection(rs: RiskState, now: int): RiskState {
    rs.(rejectionTimes := RecordedIn(rs.rejectionTimes, now, REJECTION_WINDOW))
  }

  function Checked(rs: RiskState, l: Limits, t: Tracker, qty: real, price: real, mid: real, now: int)
    : (RiskResult, RiskState)
  {
    if Abs(t.inv + qty) > l.maxPosition then (RejectedPosition, Rejection(rs, now))
    else if Abs(qty) > l.maxOrderSize then (RejectedSize, Rejection(rs, now))
    else if InsanePrice(l, price, mid) then (RejectedPrice, Rejection(rs, now))
    else
      var rs' := rs.(orderTimes := Pruned(rs.orderTimes, now - RATE_WINDOW));
      if |rs'.orderTimes| > l.rateThreshold then (RejectedRate, Rejection(rs', now))
      else if Equity(t) < -l.maxDailyLoss then (RejectedLoss, Rejection(rs', now))
      else if rs.openOrders >= l.maxOpenOrders then (RejectedOpenOrders, Rejection(rs', now))
      else (Approved, rs')
  }

  class RiskManager {
    const limits: Limits
    const pt: PositionTracker
    var orderTimes: seq<int>
    var cancelTimes: seq<int>
    var rejectionTimes: seq<int>
    var openOrderCount: int

    function State(): RiskState
      reads this
    {
      RiskState(orderTimes, cancelTimes, rejectionTimes, openOrderCount)
    }

    constructor (limits: Limits, pt: PositionTracker)
      ensures State() == RiskState([], [], [], 0) && this.limits == limits && this.pt == pt
    {
      this.limits, this.pt := limits, pt;
      orderTimes, cancelTimes, rejectionTimes, openOrderCount := [], [], [], 0;
    }

    method SetOpenOrderCount(n: int)
      modifies this`openOrderCount
      ensures State() == old(State()).(openOrders := n)
    {
      openOrderCount := n;
    }

    method RecordSubmission(now: int)
      modifies this
      ensures State() == old(State()).(orderTimes := RecordedIn(old(orderTimes), now, RATE_WINDOW))
    {
      orderTimes := PruneFront(orderTimes, now - RATE_WINDOW);
      orderTimes := orderTimes + [now];
    }

    method RecordCancel(now: int)
      modifies this
      ensures State() == old(State()).(cancelTimes := RecordedIn(old(cancelTimes), now, RATE_WINDOW))
    {
      cancelTimes := PruneFront(cancelTimes, now - RATE_WINDOW);
      cancelTimes := cancelTimes + [now];
    }

    method RecordRejection(now: int)
      modifies this
      ensures State() == Rejection(old(State()), now)
    {
      rejectionTimes := PruneFront(rejectionTimes, now - REJECTION_WINDOW);
      rejectionTimes := rejectionTimes + [now];
    }

    method RejectionsInWindow(now: int) returns (n: nat)
      modifies this
      ensures State() == old(State()).(rejectionTimes := Pruned(old(rejectionTimes), now - REJECTION_WINDOW))
      ensures n == |rejectionTimes|
    {
      rejectionTimes := PruneFront(rejectionTimes, now - REJECTION_WINDOW);
      n := |rejectionTimes|;
    }

    method PreTradeCheck(qty: real, price: real, mid: real, now: int) returns (result: RiskResult)
      requires pt as object != this
      modifies this
      ensures (result, State()) == Checked(old(State()), limits, pt.State(), qty, price, mid, now)
    {
      result := Approved;
      if Abs(pt.inventory + qty) > limits.maxPosition {
        result := RejectedPosition;
      } else if Abs(qty) > limits.maxOrderSize {
        result := RejectedSize;
      } else if mid > 0.0 && Abs(price - mid) / mid * 100.0 > limits.priceSanityPct {
        result := RejectedPrice;
      } else {
        orderTimes := PruneFront(orderTimes, now - RATE_WINDOW);
        if |orderTimes| > limits.rateThreshold {
          result := RejectedRate;
        } else if Equity(pt.State()) < -limits.maxDailyLoss {
          result := RejectedLoss;
        } else if openOrderCount >= limits.maxOpenOrders {
          result := RejectedOpenOrders;
        }
      }
      if result != Approved {
        RecordRejection(now);
      }
    }
  }

  /** An order passes exactly when it breaks none of the six limits. */
  lemma ApprovedIff(rs: RiskState, l: Limits, t: Tracker, qty: real, price: real, mid: real, now: int)
    ensures Checked(rs, l, t, qty, price, mid, now).0 == Approved <==>
            && -l.maxPosition <= t.inv + qty <= l.maxPosition
            && -l.maxOrderSize <= qty <= l.maxOrderSize
            && !InsanePrice(l, price, mid)
            && |Pruned(rs.orderTimes, now - RATE_WINDOW)| <= l.rateThreshold
            && -l.maxDailyLoss <= Equity(t)
            && rs.openOrders < l.maxOpenOrders
  {
    hide Equity, InsanePrice;
  }

  /** Within so many percent of the mid, free of division. */
  predicate InBand(price: real, mid: real, pct: real) {
    100.0 * mid - pct * mid <= 100.0 * price <= 100.0 * mid + pct * mid
  }

  lemma PercentOver(d: real, mid: real, pct: real)
    requires mid > 0.0
    ensures d / mid * 100.0 > pct <==> 100.0 * d > pct * mid
  {
    var r := d / mid * 100.0;
    assert r * mid == 100.0 * d;
    if r > pct {
      assert (r - pct) * mid > 0.0;
    } else {
      assert (r - pct) * mid <= 0.0;
    }
  }

  /** The price band on both sides of a known mid; without a mid every price is sane. */
  lemma BandIs(l: Limits, price: real, mid: real)
    ensures InsanePrice(l, price, mid) <==> mid > 0.0 && !InBand(price, mid, l.priceSanityPct)
  {
    if mid > 0.0 {
      PercentOver(Abs(price - mid), mid, l.priceSanityPct);
    }
  }

  /** The verdict, limit by limit: the first one broken, in this order, or approval. */
  lemma VerdictIs(rs: RiskState, l: Limits, t: Tracker, qty: real, price: real, mid: real, now: int)
    ensures Checked(rs, l, t, qty, price, mid, now).0 ==
            if t.inv + qty > l.maxPosition || t.inv + qty < -l.maxPosition then RejectedPosition
            else if qty > l.maxOrderSize || qty < -l.maxOrderSize then RejectedSize
            else if mid > 0.0 && !InBand(price, mid, l.priceSanityPct) then RejectedPrice
            else if |Pruned(rs.orderTimes, now - 60_000)| > l.rateThreshold then RejectedRate
            else if t.realized + (if t.inv == 0.0 || t.mid <= 0.0 then 0.0 else t.inv * (t.mid - t.avgEntry))
                    < -l.maxDailyLoss then RejectedLoss
            else if rs.openOrders >= l.maxOpenOrders then RejectedOpenOrders
            else Approved
  {
    BandIs(l, price, mid);
    hide InsanePrice, InBand, Pruned;
  }

  /** Only the rate window and the rejection window ever change: the one is pruned once
      position, size and price have passed, the other takes every refusal. */
  lemma CheckLeaves(rs: RiskState, l: Limits, t: Tracker, qty: real, price: real, mid: real, now: int)
    ensures var (verdict, rs') := Checked(rs, l, t, qty, price, mid, now);
            && rs'.cancelTimes == rs.cancelTimes && rs'.openOrders == rs.openOrders
            && rs'.orderTimes == (if verdict.RejectedPosition? || verdict.RejectedSize? || verdict.RejectedPrice?
                                  then rs.orderTimes else Pruned(rs.orderTimes, now - 60_000))
            && rs'.rejectionTimes == (if verdict.Approved? then rs.rejectionTimes
                                      else Pruned(rs.rejectionTimes, now - 30_000) + [now])
  {
    hide InsanePrice, Pruned, Equity;
  }

  /** Approval in plain terms. */
  lemma ApprovedExactly(rs: RiskState, l: Limits, t: Tracker, qty: real, price: real, mid: real, now: int)
    ensures Checked(rs, l, t, qty, price, mid, now).0 == Approved <==>
            && -l.maxPosition <= t.inv + qty <= l.maxPosition
            && -l.maxOrderSize <= qty <= l.maxOrderSize
            && (mid > 0.0 ==> InBand(price, mid, l.priceSanityPct))
            && |Pruned(rs.orderTimes, now - 60_000)| <= l.rateThreshold
            && -l.maxDailyLoss <= Equity(t)
            && rs.openOrders < l.maxOpenOrders
  {
    ApprovedIff(rs, l, t, qty, price, mid, now);
    BandIs(l, price, mid);
    hide InsanePrice, InBand, Pruned, Equity, Checked;
  }

  lemma DivideAtLeast(x: real, y: real)
    requires x >= y > 0.0
    ensures x / y >= 1.0
  {
    var r := x / y;
    assert r * y == x;
    assert r >= 1.0 || (1.0 - r) * y > 0.0;
  }

  /** With a sanity band below 100% no order at a price of zero or less passes. */
  lemma SanePriceIsPositive(l: Limits, price: real, mid: real)
    requires l.priceSanityPct < 100.0 && mid > 0.0 && !InsanePrice(l, price, mid)
    ensures price > 0.0
  {
    if price <= 0.0 {
      DivideAtLeast(mid - price, mid);
    }
  }

  // ---- The window over whole histories ----

  /** What can happen to a window: a submission is recorded, or the gate looks at it. */
  datatype Op = Record(at: int) | Look(at: int)

  ghost predicate InTimeOrder(ops: seq<Op>) {
    forall i, j :: 0 <= i < j < |ops| ==> ops[i].at <= ops[j].at
  }

  function BucketAfter(ops: seq<Op>, window: int): seq<int> {
    if ops == [] then []
    else
      var bucket, op := BucketAfter(ops[..|ops| - 1], window), ops[|ops| - 1];
      if op.Record? then RecordedIn(bucket, op.at, window) else Pruned(bucket, op.at - window)
  }

  function History(ops: seq<Op>): seq<int> {
    if ops == [] then []
    else if ops[|ops| - 1].Record? then History(ops[..|ops| - 1]) + [ops[|ops| - 1].at]
    else History(ops[..|ops| - 1])
  }

  /** The entries at or after `cutoff`. */
  function Since(times: seq<int>, cutoff: int): seq<int> {
    if times == [] then []
    else
      var front, t := Since(times[..|times| - 1], cutoff), times[|times| - 1];
      if t >= cutoff then front + [t] else front
  }

  lemma {:induction false} SinceOfSuffix(times: seq<int>, cutoff: int)
    ensures times != [] && times[0] < cutoff ==> Since(times[1..], cutoff) == Since(times, cutoff)
    decreases |times|
  {
    if |times| > 1 {
      var n := |times| - 1;
      SinceOfSuffix(times[..n], cutoff);
      assert times[1..][..n - 1] == times[..n][1..];
    }
  }

  ghost predicate NonDecreasing(times: seq<int>) {
    forall i, j :: 0 <= i < j < |times| ==> times[i] <= times[j]
  }

  lemma {:induction false} SinceAll(times: seq<int>, cutoff: int)
    requires forall i :: 0 <= i < |times| ==> times[i] >= cutoff
    ensures Since(times, cutoff) == times
    decreases |times|
  {
    if times == [] {
    } else {
      SinceAll(times[..|times| - 1], cutoff);
    }
  }

  /** On a sorted bucket, dropping stale entries from the front is filtering. */
  lemma {:induction false} PruneIsFilter(times: seq<int>, cutoff: int)
    requires NonDecreasing(times)
    ensures Pruned(times, cutoff) == Since(times, cutoff)
    decreases |times|
  {
    if times == [] || times[0] >= cutoff {
      SinceAll(times, cutoff);
    } else {
      PruneIsFilter(times[1..], cutoff);
      SinceOfSuffix(times, cutoff);
    }
  }

  /** Filtering twice with rising cutoffs is filtering once. */
  lemma {:induction false} SinceTwice(times: seq<int>, early: int, late: int)
    requires early <= late
    ensures Since(Since(times, early), late) == Since(times, late)
    ensures |Since(times, late)| <= |Since(times, early)| <= |times|
    decreases |times|
  {
    if times == [] {
    } else {
      var n := |times| - 1;
      SinceTwice(times[..n], early, late);
      if times[n] >= early {
        assert (Since(times[..n], early) + [times[n]])[..|Since(times[..n], early)|] == Since(times[..n], early);
      }
    }
  }

  lemma {:induction false} SinceKeepsOrder(times: seq<int>, cutoff: int)
    requires NonDecreasing(times)
    ensures NonDecreasing(Since(times, cutoff))
    ensures forall i :: 0 <= i < |Since(times, cutoff)| ==> Since(times, cutoff)[i] <= times[|times| - 1]
    decreases |times|
  {
    if |times| > 1 {
      var front := times[..|times| - 1];
      SinceKeepsOrder(front, cutoff);
      assert front[|front| - 1] <= times[|times| - 1];
    }
  }

  lemma {:induction false} HistoryInOrder(ops: seq<Op>)
    requires InTimeOrder(ops)
    ensures NonDecreasing(History(ops))
    ensures ops == [] ==> History(ops) == []
    ensures forall i :: 0 <= i < |History(ops)| ==> History(ops)[i] <= ops[|ops| - 1].at
    decreases |ops|
  {
    if |ops| > 1 {
      var front := ops[..|ops| - 1];
      HistoryInOrder(front);
      assert front[|front| - 1].at <= ops[|ops| - 1].at;
    }
  }

  lemma PruneNothing(cutoff: int)
    ensures Pruned([], cutoff) == []
  {}

  lemma PruneAgain(front: seq<Op>, window: nat, cutoff: int)
    requires InTimeOrder(front) && front != [] && front[|front| - 1].at - window <= cutoff
    requires BucketAfter(front, window) == Since(History(front), front[|front| - 1].at - window)
    ensures Pruned(BucketAfter(front, window), cutoff) == Since(History(front), cutoff)
  {
    var before := front[|front| - 1].at - window;
    HistoryInOrder(front);
    SinceKeepsOrder(History(front), before);
    PruneIsFilter(BucketAfter(front, window), cutoff);
    SinceTwice(History(front), before, cutoff);
  }

  /** With nondecreasing times the pruned bucket is the whole submission history filtered
      to the closed window that ends now. */
  lemma {:induction false} BucketIsRecentHistory(ops: seq<Op>, window: nat)
    requires InTimeOrder(ops) && ops != []
    ensures BucketAfter(ops, window) == Since(History(ops), ops[|ops| - 1].at - window)
    decreases |ops|
  {
    var n := |ops| - 1;
    var front, op := ops[..n], ops[n];
    var cutoff := op.at - window;
    if front == [] {
    } else {
      BucketIsRecentHistory(front, window);
      PruneAgain(front, window, cutoff);
    }
    hide Pruned, NonDecreasing;
    assert Pruned(BucketAfter(front, window), cutoff) == Since(History(front), cutoff) by {
      if front == [] { PruneNothing(cutoff); }
    }
    if op.Record? {
      assert (History(front) + [op.at])[..|History(front)|] == History(front);
    }
  }

  /** The gate looked just before the operation, and found the window within the limit. */
  predicate Admitted(ops: seq<Op>, i: nat, threshold: int)
    requires i < |ops|
  {
    i > 0 && ops[i - 1].Look? && |BucketAfter(ops[..i], RATE_WINDOW)| <= threshold
  }

  ghost predicate Gated(ops: seq<Op>, threshold: int) {
    forall i :: 0 <= i < |ops| && ops[i].Record? ==> Admitted(ops, i, threshold)
  }

  /** Nothing in the trace is later than `now`. */
  ghost predicate UpTo(ops: seq<Op>, now: int) {
    InTimeOrder(ops) && (ops != [] ==> ops[|ops| - 1].at <= now)
  }

  lemma BucketGrows(ops: seq<Op>, op: Op, window: int)
    ensures BucketAfter(ops + [op], window) ==
            if op.Record? then RecordedIn(BucketAfter(ops, window), op.at, window)
            else Pruned(BucketAfter(ops, window), op.at - window)
    ensures History(ops + [op]) == if op.Record? then History(ops) + [op.at] else History(ops)
  {
    hide Pruned, RecordedIn;
    var longer := ops + [op];
    assert longer[..|longer| - 1] == ops && longer[|longer| - 1] == op;
  }

  lemma AdmittedInFront(ops: seq<Op>, op: Op, i: nat, threshold: int)
    requires i <= |ops|
    ensures i < |ops| ==> Admitted(ops + [op], i, threshold) == Admitted(ops, i, threshold)
    ensures i == |ops| ==> (Admitted(ops + [op], i, threshold) <==>
              i > 0 && ops[i - 1].Look? && |BucketAfter(ops, RATE_WINDOW)| <= threshold)
  {
    hide BucketAfter;
    assert (ops + [op])[..i] == ops[..i];
    assert ops[..|ops|] == ops;
  }

  /** A gated trace grows by a look at any time, and by a submission after a look that
      found room. */
  lemma GatedGrows(ops: seq<Op>, op: Op, threshold: int)
    requires Gated(ops, threshold) && UpTo(ops, op.at)
    requires op.Record? ==>
               ops != [] && ops[|ops| - 1].Look? && |BucketAfter(ops, RATE_WINDOW)| <= threshold
    ensures Gated(ops + [op], threshold) && UpTo(ops + [op], op.at)
  {
    hide BucketAfter, Admitted;
    forall i | 0 <= i <= |ops| && (ops + [op])[i].Record? ensures Admitted(ops + [op], i, threshold) {
      AdmittedInFront(ops, op, i, threshold);
    }
  }

  function Within(times: seq<int>, from: int, to: int): nat {
    if times == [] then 0
    else
      var t := times[|times| - 1];
      Within(times[..|times| - 1], from, to) + if from <= t <= to then 1 else 0
  }

  lemma {:induction false} WithinSince(times: seq<int>, from: int, to: int, cutoff: int)
    requires cutoff <= from
    ensures Within(times, from, to) <= |Since(times, cutoff)|
    decreases |times|
  {
    if times == [] {
    } else {
      WithinSince(times[..|times| - 1], from, to, cutoff);
    }
  }

  /** What the window holds covers the 60 seconds up to a submission. */
  lemma WindowCovers(front: seq<Op>, at: int, from: int)
    requires UpTo(front, at) && front != [] && at <= from + 60_000
    ensures Within(History(front), from, from + 60_000) <= |BucketAfter(front, RATE_WINDOW)|
  {
    hide History, BucketAfter, Within, Since, InTimeOrder;
    var last := front[|front| - 1].at;
    BucketIsRecentHistory(front, RATE_WINDOW);
    WithinSince(History(front), from, from + 60_000, last - RATE_WINDOW);
  }

  lemma GatedFront(front: seq<Op>, op: Op, threshold: int)
    requires Gated(front + [op], threshold) && InTimeOrder(front + [op])
    ensures Gated(front, threshold) && UpTo(front, op.at)
    ensures op.Record? ==> front != [] && |BucketAfter(front, RATE_WINDOW)| <= threshold
  {
    hide BucketAfter, Admitted;
    var n := |front|;
    assert (front + [op])[n] == op;
    forall i | 0 <= i < n && front[i].Record? ensures Admitted(front, i, threshold) {
      assert (front + [op])[i] == front[i];
      AdmittedInFront(front, op, i, threshold);
    }
    forall i, j | 0 <= i < j < n ensures front[i].at <= front[j].at {
      assert (front + [op])[i].at <= (front + [op])[j].at;
    }
    if n > 0 {
      assert (front + [op])[n - 1].at <= op.at;
    }
    if op.Record? {
      AdmittedInFront(front, op, n, threshold);
    }
  }

  lemma WithinGrows(times: seq<int>, t: int, from: int, to: int)
    ensures Within(times + [t], from, to) == Within(times, from, to) + if from <= t <= to then 1 else 0
  {
    assert (times + [t])[..|times|] == times;
  }

  /** Any 60 seconds of gated submissions, wherever they start, hold at most one more
      order than the threshold. */
  lemma {:induction false} RateBound(ops: seq<Op>, threshold: int, from: int)
    requires InTimeOrder(ops) && Gated(ops, threshold)
    ensures Within(History(ops), from, from + 60_000) <= if threshold >= 0 then threshold + 1 else 0
    decreases |ops|
  {
    if ops == [] {
    } else {
      var front, op := ops[..|ops| - 1], ops[|ops| - 1];
      assert front + [op] == ops;
      GatedFront(front, op, threshold);
      RateBound(front, threshold, from);
      BucketGrows(front, op, RATE_WINDOW);
      hide Gated, InTimeOrder, History, Within, BucketAfter;
      if op.Record? {
        WithinGrows(History(front), op.at, from, from + 60_000);
        if op.at <= from + 60_000 {
          WindowCovers(front, op.at, from);
        }
      }
    }
  }
}
