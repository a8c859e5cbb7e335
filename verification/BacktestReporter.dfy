/** The backtest's running statistics: the equity curve with its one-pass maximum drawdown,
    and the fill counters. */
module BacktestStats {
  /** Fall from `peak` to `equity` in percent of the peak. */
  function Fall(peak: real, equity: real): real
    requires peak > 0.0
  {
    (peak - equity) / peak * 100.0
  }

  lemma FallIs(peak: real, equity: real)
    requires peak > 0.0
    ensures Fall(peak, equity) * peak == 100.0 * (peak - equity)
  {}

  datatype Stats = Stats(finalEquity: real, totalPnl: real, maxDrawdownPct: real, fillCount: nat,
                         makerRatio: real, avgSpreadBps: real)

  datatype Curve = Curve(samples: seq<real>, peak: real, maxFall: real)

  function Sampled(c: Curve, equity: real): Curve {
    var peak := if equity > c.peak then equity else c.peak;
    var c' := c.(samples := c.samples + [equity], peak := peak);
    if peak > 0.0 && Fall(peak, equity) > c.maxFall then c'.(maxFall := Fall(peak, equity)) else c'
  }

  class BacktestReporter {
    const initialCapital: real
    var equityCurve: seq<real>
    var peakEquity: real
    var maxDdPct: real
    var fillCount: nat
    var makerFillCount: nat
    var sumSpreadBps: real

    function Now(): Curve
      reads this
    {
      Curve(equityCurve, peakEquity, maxDdPct)
    }

    constructor (initialCapital: real)
      ensures this.initialCapital == initialCapital && Now() == Curve([], initialCapital, 0.0)
      ensures fillCount == 0 && makerFillCount == 0 && sumSpreadBps == 0.0
    {
      this.initialCapital := initialCapital;
      equityCurve, peakEquity, maxDdPct := [], initialCapital, 0.0;
      fillCount, makerFillCount, sumSpreadBps := 0, 0, 0.0;
    }

    method OnEquitySample(equity: real)
      modifies `equityCurve, `peakEquity, `maxDdPct
      ensures Now() == Sampled(old(Now()), equity)
    {
      equityCurve := equityCurve + [equity];
      if equity > peakEquity {
        peakEquity := equity;
      }
      if peakEquity > 0.0 {
        var dd := (peakEquity - equity) / peakEquity * 100.0;
        if dd > maxDdPct {
          maxDdPct := dd;
        }
      }
    }

    method OnFill(spreadBps: real, maker: bool)
      modifies `fillCount, `makerFillCount, `sumSpreadBps
      ensures fillCount == old(fillCount) + 1
      ensures makerFillCount == old(makerFillCount) + if maker then 1 else 0
      ensures sumSpreadBps == old(sumSpreadBps) + spreadBps
    {
      fillCount := fillCount + 1;
      if maker {
        makerFillCount := makerFillCount + 1;
      }
      sumSpreadBps := sumSpreadBps + spreadBps;
    }

    method Finalize() returns (s: Stats)
      ensures s.maxDrawdownPct == maxDdPct && s.fillCount == fillCount
      ensures fillCount == 0 ==> s.makerRatio == 0.0 && s.avgSpreadBps == 0.0
      ensures fillCount > 0 ==> s.makerRatio * fillCount as real == makerFillCount as real
      ensures fillCount > 0 ==> s.avgSpreadBps * fillCount as real == sumSpreadBps
      ensures equityCurve == [] ==> s.finalEquity == 0.0 && s.totalPnl == 0.0
      ensures equityCurve != [] ==> s.finalEquity == equityCurve[|equityCurve| - 1]
                                    && s.totalPnl == s.finalEquity - initialCapital
    {
      s := Stats(0.0, 0.0, maxDdPct, fillCount,
                 if fillCount > 0 then makerFillCount as real / fillCount as real else 0.0,
                 if fillCount > 0 then sumSpreadBps / fillCount as real else 0.0);
      if equityCurve != [] {
        var last := equityCurve[|equityCurve| - 1];
        s := s.(finalEquity := last, totalPnl := last - initialCapital);
      }
    }
  }

  // ---- Whole curves ----

  function After(initial: real, es: seq<real>): (c: Curve)
    ensures c.samples == es && c.peak >= initial && c.maxFall >= 0.0
  {
    if es == [] then Curve([], initial, 0.0)
    else
      assert es[..|es| - 1] + [es[|es| - 1]] == es;
      Sampled(After(initial, es[..|es| - 1]), es[|es| - 1])
  }

  /** Capital and samples up to position `i`, capital first. */
  function Point(initial: real, es: seq<real>, i: nat): real
    requires i <= |es|
  {
    if i == 0 then initial else es[i - 1]
  }

  lemma SampledPeak(initial: real, es: seq<real>)
    requires es != []
    ensures var p, e := After(initial, es[..|es| - 1]).peak, es[|es| - 1];
            After(initial, es).peak == if e > p then e else p
  {
    hide Fall;
  }

  lemma {:induction false} PeakBounds(initial: real, es: seq<real>, i: nat)
    requires i <= |es|
    ensures Point(initial, es, i) <= After(initial, es).peak
    decreases |es|
  {
    if es == [] {
    } else {
      SampledPeak(initial, es);
      hide Sampled;
      if i < |es| {
        PeakBounds(initial, es[..|es| - 1], i);
      }
    }
  }

  lemma {:induction false} PeakReached(initial: real, es: seq<real>) returns (i: nat)
    ensures i <= |es| && Point(initial, es, i) == After(initial, es).peak
    decreases |es|
  {
    i := |es|;
    if es == [] {
    } else {
      SampledPeak(initial, es);
      hide Sampled;
      if es[|es| - 1] <= After(initial, es[..|es| - 1]).peak {
        i := PeakReached(initial, es[..|es| - 1]);
      }
    }
  }

  lemma PeakIsHighest(initial: real, es: seq<real>)
    ensures forall i :: 0 <= i <= |es| ==> Point(initial, es, i) <= After(initial, es).peak
    ensures exists i :: 0 <= i <= |es| && Point(initial, es, i) == After(initial, es).peak
  {
    forall i | 0 <= i <= |es| ensures Point(initial, es, i) <= After(initial, es).peak {
      PeakBounds(initial, es, i);
    }
    var k := PeakReached(initial, es);
    hide After, Point;
  }

  lemma SameProduct(u: real, a: real, v: real, b: real)
    requires 0.0 < a <= b && u * a == v * b
    ensures u * a >= 0.0 ==> v <= u
    ensures u * a < 0.0 && a < b ==> v > u
  {
    assert (u - v) * b == u * (b - a);
  }

  /** For a nonnegative end point the highest start falls furthest; for a negative one the
      lowest positive start does. */
  lemma HigherFallsFurther(a: real, b: real, e: real)
    requires 0.0 < a <= b
    ensures e >= 0.0 ==> Fall(a, e) <= Fall(b, e)
    ensures e < 0.0 && a < b ==> Fall(a, e) > Fall(b, e)
  {
    var u, v := 1.0 - (a - e) / a, 1.0 - (b - e) / b;
    assert u * a == e && v * b == e;
    SameProduct(u, a, v, b);
  }

  ghost predicate BoundsFalls(initial: real, es: seq<real>, bound: real) {
    forall i, j :: 0 <= i <= j <= |es| && Point(initial, es, i) > 0.0
                   ==> Fall(Point(initial, es, i), Point(initial, es, j)) <= bound
  }

  ghost predicate IsFall(initial: real, es: seq<real>, fall: real) {
    exists i, j :: 0 <= i <= j <= |es| && Point(initial, es, i) > 0.0
                   && Fall(Point(initial, es, i), Point(initial, es, j)) == fall
  }

  /** What a new sample must satisfy for the running peak to give its worst fall. */
  lemma PeakIsWorstStart(initial: real, es: seq<real>, e: real)
    requires initial > 0.0 && e <= After(initial, es).peak
    ensures (forall i :: 0 <= i <= |es| && Point(initial, es, i) > 0.0
               ==> Fall(Point(initial, es, i), e) <= Fall(After(initial, es).peak, e))
            <==>
            e >= 0.0 || forall i :: 0 <= i <= |es| && Point(initial, es, i) > 0.0
                                    ==> Point(initial, es, i) == After(initial, es).peak
  {
    PeakIsHighest(initial, es);
    assert Point(initial, es, 0) == initial;
    var peak := After(initial, es).peak;
    forall i | 0 <= i <= |es| && Point(initial, es, i) > 0.0
      ensures e >= 0.0 ==> Fall(Point(initial, es, i), e) <= Fall(peak, e)
      ensures e < 0.0 ==> (Fall(Point(initial, es, i), e) <= Fall(peak, e) <==> Point(initial, es, i) == peak)
    {
      HigherFallsFurther(Point(initial, es, i), peak, e);
    }
  }

  /** Fall of sample `j` from the peak at its time. */
  function PeakFall(initial: real, es: seq<real>, j: nat): real
    requires initial > 0.0 && j < |es|
  {
    Fall(After(initial, es[..j + 1]).peak, es[j])
  }

  lemma PeakFallInFront(initial: real, es: seq<real>, n: nat, j: nat)
    requires initial > 0.0 && j < n <= |es|
    ensures PeakFall(initial, es[..n], j) == PeakFall(initial, es, j)
  {
    assert es[..n][..j + 1] == es[..j + 1];
  }

  /** For any equities, the one-pass maximum bounds the fall of every sample from the peak
      at its time, and is one of them or zero. */
  lemma {:induction false} OnePassIsPeakFall(initial: real, es: seq<real>)
    requires initial > 0.0
    ensures forall j :: 0 <= j < |es| ==> PeakFall(initial, es, j) <= After(initial, es).maxFall
    ensures After(initial, es).maxFall == 0.0
            || exists j :: 0 <= j < |es| && PeakFall(initial, es, j) == After(initial, es).maxFall
    decreases |es|
  {
    if es == [] {
    } else {
      var n := |es| - 1;
      OnePassIsPeakFall(initial, es[..n]);
      assert es[..n + 1] == es;
      var c := After(initial, es);
      assert PeakFall(initial, es, n) == Fall(c.peak, es[n]);
      hide PeakFall, Fall;
      forall j | 0 <= j < n ensures PeakFall(initial, es[..n], j) == PeakFall(initial, es, j) {
        PeakFallInFront(initial, es, n, j);
      }
    }
  }

  /** The fall of a sample from the peak at its time is a fall between two points; and it is
      the worst into that sample unless the sample is negative. */
  lemma PeakFallIsWorst(initial: real, es: seq<real>, i: nat, j: nat)
    requires initial > 0.0 && j < |es| && i <= j + 1
    ensures IsFall(initial, es, PeakFall(initial, es, j))
    ensures Point(initial, es, i) > 0.0 && es[j] >= 0.0
            ==> Fall(Point(initial, es, i), es[j]) <= PeakFall(initial, es, j)
    ensures Point(initial, es, i) > 0.0 && es[j] < 0.0
            ==> PeakFall(initial, es, j) <= Fall(Point(initial, es, i), es[j])
    ensures Point(initial, es, i) > 0.0 && es[j] < 0.0 && Fall(Point(initial, es, i), es[j]) <= PeakFall(initial, es, j)
            ==> Point(initial, es, i) == After(initial, es[..j + 1]).peak
  {
    var front := es[..j + 1];
    var peak := After(initial, front).peak;
    PeakBounds(initial, front, i);
    assert Point(initial, es, i) == Point(initial, front, i);
    var k := PeakReached(initial, front);
    assert Point(initial, es, k) == peak && Point(initial, es, j + 1) == es[j];
    assert Fall(Point(initial, es, k), Point(initial, es, j + 1)) == PeakFall(initial, es, j);
    hide After, Fall;
    if Point(initial, es, i) > 0.0 {
      HigherFallsFurther(Point(initial, es, i), peak, es[j]);
    }
  }

  /** Only a fall into a negative point exceeds 100 percent. */
  lemma FallOverHundred(a: real, e: real)
    requires a > 0.0
    ensures Fall(a, e) > 100.0 <==> e < 0.0
    ensures Fall(a, a) == 0.0
  {
    var u := (a - e) / a;
    assert u * a == a - e;
    if e < 0.0 {
      assert (u - 1.0) * a > 0.0;
    } else {
      assert (u - 1.0) * a <= 0.0;
    }
  }

  predicate NoNegative(es: seq<real>) {
    forall i :: 0 <= i < |es| ==> es[i] >= 0.0
  }

  /** Point `k` is negative, up to it the curve was never positive except at the initial
      capital, and no fall into any negative point exceeds the one from the capital to it. */
  ghost predicate WorstFromCapital(initial: real, es: seq<real>, k: nat)
    requires initial > 0.0
  {
    && 1 <= k <= |es| && Point(initial, es, k) < 0.0
    && (forall i :: 0 <= i <= k && Point(initial, es, i) > 0.0 ==> Point(initial, es, i) == initial)
    && (forall i, j :: 0 <= i <= j <= |es| && Point(initial, es, i) > 0.0 && Point(initial, es, j) < 0.0
          ==> Fall(Point(initial, es, i), Point(initial, es, j)) <= Fall(initial, Point(initial, es, k)))
  }

  /** Falls into points that are not negative never escape the one-pass maximum. */
  lemma NonnegativeFallsBounded(initial: real, es: seq<real>, i: nat, j: nat)
    requires initial > 0.0 && i <= j <= |es| && Point(initial, es, i) > 0.0 && Point(initial, es, j) >= 0.0
    ensures Fall(Point(initial, es, i), Point(initial, es, j)) <= After(initial, es).maxFall
  {
    if j == 0 {
      FallOverHundred(initial, initial);
    } else {
      OnePassIsPeakFall(initial, es);
      PeakFallIsWorst(initial, es, i, j - 1);
    }
    hide After, Fall, PeakFall;
  }

  lemma WorstFromCapitalSuffices(initial: real, es: seq<real>, k: nat)
    requires initial > 0.0 && WorstFromCapital(initial, es, k)
    ensures BoundsFalls(initial, es, After(initial, es).maxFall)
  {
    var m := After(initial, es).maxFall;
    OnePassIsPeakFall(initial, es);
    var front := es[..k];
    var at := PeakReached(initial, front);
    assert Point(initial, es, at) == Point(initial, front, at);
    assert PeakFall(initial, es, k - 1) == Fall(initial, Point(initial, es, k));
    forall i, j | 0 <= i <= j <= |es| && Point(initial, es, i) > 0.0
      ensures Fall(Point(initial, es, i), Point(initial, es, j)) <= m
    {
      if Point(initial, es, j) >= 0.0 {
        NonnegativeFallsBounded(initial, es, i, j);
      }
    }
  }

  lemma BoundNeedsCapital(initial: real, es: seq<real>, n: nat) returns (k: nat)
    requires initial > 0.0 && BoundsFalls(initial, es, After(initial, es).maxFall)
    requires n < |es| && es[n] < 0.0
    ensures WorstFromCapital(initial, es, k)
  {
    var m := After(initial, es).maxFall;
    OnePassIsPeakFall(initial, es);
    FallOverHundred(After(initial, es[..n + 1]).peak, es[n]);
    assert m >= PeakFall(initial, es, n) > 100.0;
    var j :| 0 <= j < |es| && PeakFall(initial, es, j) == m;
    FallOverHundred(After(initial, es[..j + 1]).peak, es[j]);
    k := j + 1;
    hide After, Fall, PeakFall;
    assert Point(initial, es, k) == es[j] && Point(initial, es, 0) == initial;
    forall i | 0 <= i <= k && Point(initial, es, i) > 0.0
      ensures Point(initial, es, i) == initial && Fall(Point(initial, es, i), es[j]) == m
    {
      PeakFallIsWorst(initial, es, i, j);
      PeakFallIsWorst(initial, es, 0, j);
      assert Fall(Point(initial, es, i), Point(initial, es, k)) <= m;
      assert Fall(Point(initial, es, 0), Point(initial, es, k)) <= m;
    }
  }

  /** With positive capital the one-pass maximum is a fall from some point to a later one,
      the initial capital included; and it is the largest of them exactly when no sample is
      negative, or the worst fall into a negative one starts from the capital before the
      curve had any other positive value. */
  lemma OnePassIsDefinition(initial: real, es: seq<real>)
    requires initial > 0.0
    ensures IsFall(initial, es, After(initial, es).maxFall)
    ensures BoundsFalls(initial, es, After(initial, es).maxFall) <==>
            NoNegative(es) || exists k: nat :: WorstFromCapital(initial, es, k)
  {
    var m := After(initial, es).maxFall;
    OnePassIsPeakFall(initial, es);
    hide After, Fall, PeakFall;
    if m == 0.0 {
      FallOverHundred(initial, initial);
      assert Fall(Point(initial, es, 0), Point(initial, es, 0)) == m;
    } else {
      var j :| 0 <= j < |es| && PeakFall(initial, es, j) == m;
      PeakFallIsWorst(initial, es, 0, j);
    }
    if k: nat :| WorstFromCapital(initial, es, k) {
      WorstFromCapitalSuffices(initial, es, k);
    } else if NoNegative(es) {
      forall i, j | 0 <= i <= j <= |es| && Point(initial, es, i) > 0.0
        ensures Fall(Point(initial, es, i), Point(initial, es, j)) <= m
      {
        NonnegativeFallsBounded(initial, es, i, j);
      }
    } else if BoundsFalls(initial, es, m) {
      var n :| 0 <= n < |es| && es[n] < 0.0;
      var k := BoundNeedsCapital(initial, es, n);
    }
  }

  /** Equity below zero breaks the agreement: from 100 through 1 to -10 the worst fall is
      1100 percent, and the one-pass maximum is 110. */
  lemma NegativeEquityUnderstates()
    ensures var es := [1.0, -10.0];
            && After(100.0, es).maxFall == 110.0
            && Fall(Point(100.0, es, 1), Point(100.0, es, 2)) == 1100.0
            && !BoundsFalls(100.0, es, After(100.0, es).maxFall)
  {
    var es := [1.0, -10.0];
    assert es[..1] == [1.0] && es[..1][..0] == [];
    assert After(100.0, es[..1]) == Sampled(Curve([], 100.0, 0.0), 1.0);
    assert Fall(100.0, 1.0) == 99.0 && Fall(100.0, -10.0) == 110.0;
  }
}
