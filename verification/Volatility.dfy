/** The volatility window: a ring of the latest positive mid prices, whose standard
    deviation of log returns is published after every push. The logarithm and the square
    root are parameters. */
module Volatility {
  import opened Bits

  datatype Math = Math(ln: real -> real, sqrt: real -> real)

  // ---- What is published, as a function of the prices in arrival order ----

  function Returns(m: Math, ps: seq<real>): seq<real> {
    if |ps| < 2 then []
    else
      var prev, p := ps[|ps| - 2], ps[|ps| - 1];
      Returns(m, ps[..|ps| - 1]) + if prev > 0.0 && p > 0.0 then [m.ln(p / prev)] else []
  }

  lemma ReturnsStart(m: Math, ps: seq<real>)
    requires ps != []
    ensures Returns(m, ps[..1]) == []
  {}

  lemma ReturnsStep(m: Math, ps: seq<real>, k: nat)
    requires 1 <= k < |ps|
    ensures Returns(m, ps[..k + 1]) ==
            Returns(m, ps[..k]) + if ps[k - 1] > 0.0 && ps[k] > 0.0 then [m.ln(ps[k] / ps[k - 1])] else []
  {
    assert ps[..k + 1][..k] == ps[..k];
  }

  function Sum(rs: seq<real>): real {
    if rs == [] then 0.0 else Sum(rs[..|rs| - 1]) + rs[|rs| - 1]
  }

  function SquaresAbout(rs: seq<real>, mean: real): real {
    if rs == [] then 0.0
    else SquaresAbout(rs[..|rs| - 1], mean) + (rs[|rs| - 1] - mean) * (rs[|rs| - 1] - mean)
  }

  function Stdev(m: Math, ps: seq<real>): real {
    var rs := Returns(m, ps);
    if rs == [] then 0.0
    else m.sqrt(SquaresAbout(rs, Sum(rs) / |rs| as real) / |rs| as real)
  }

  function Positives(mids: seq<real>): (ps: seq<real>)
    ensures forall i :: 0 <= i < |ps| ==> ps[i] > 0.0
  {
    if mids == [] then []
    else if mids[|mids| - 1] > 0.0 then Positives(mids[..|mids| - 1]) + [mids[|mids| - 1]]
    else Positives(mids[..|mids| - 1])
  }

  function Last(ps: seq<real>, n: nat): seq<real> {
    if |ps| <= n then ps else ps[|ps| - n..]
  }

  // ---- The ring ----

  datatype Window = Window(prices: seq<real>, idx: nat)

  ghost predicate Valid(w: Window, size: nat) {
    size >= 1 && |w.prices| <= size && w.idx < size && (|w.prices| < size ==> w.idx == 0)
  }

  function Wrapped(i: nat, n: nat): nat
    requires n >= 1
  {
    i % n
  }

  lemma WrapsOnce(i: nat, n: nat)
    requires n >= 1 && i < 2 * n
    ensures Wrapped(i, n) == if i < n then i else i - n
  {
    if i < n {
      ModUnique(i, n, 0, i);
    } else {
      ModUnique(i, n, 1, i - n);
    }
  }

  /** The ring read from position `i` all the way round. */
  function Rotated(ps: seq<real>, i: nat): (r: seq<real>)
    requires i <= |ps|
    ensures |r| == |ps|
  {
    ps[i..] + ps[..i]
  }

  /** The prices from the oldest to the latest. */
  function Chronological(w: Window, size: nat): seq<real>
    requires Valid(w, size)
  {
    if |w.prices| < size then w.prices else Rotated(w.prices, w.idx)
  }

  function Pushed(w: Window, size: nat, mid: real): Window
    requires Valid(w, size)
  {
    if mid <= 0.0 then w
    else if |w.prices| < size then w.(prices := w.prices + [mid])
    else Window(w.prices[w.idx := mid], Wrapped(w.idx + 1, size))
  }

  lemma DropFirst(ps: seq<real>, i: nat, mid: real)
    requires i < |ps|
    ensures Rotated(ps[i := mid], i + 1) == (Rotated(ps, i) + [mid])[1..]
  {
    var now, later := Rotated(ps[i := mid], i + 1), (Rotated(ps, i) + [mid])[1..];
    forall k | 0 <= k < |ps| ensures now[k] == later[k] {}
  }

  lemma WholeRing(ps: seq<real>)
    ensures Rotated(ps, 0) == ps && Rotated(ps, |ps|) == ps
  {}

  lemma FullShifts(w: Window, size: nat, mid: real)
    requires Valid(w, size) && mid > 0.0 && |w.prices| == size
    ensures Valid(Pushed(w, size, mid), size)
    ensures Chronological(Pushed(w, size, mid), size) == Last(Chronological(w, size) + [mid], size)
  {
    hide Wrapped, Rotated;
    WrapsOnce(w.idx + 1, size);
    DropFirst(w.prices, w.idx, mid);
    WholeRing(w.prices[w.idx := mid]);
  }

  /** A positive mid joins at the end, and drops the oldest once the ring is full. */
  lemma PushShifts(w: Window, size: nat, mid: real)
    requires Valid(w, size)
    ensures Valid(Pushed(w, size, mid), size)
    ensures Chronological(Pushed(w, size, mid), size) ==
            if mid > 0.0 then Last(Chronological(w, size) + [mid], size) else Chronological(w, size)
  {
    if mid > 0.0 && |w.prices| == size {
      FullShifts(w, size, mid);
    } else {
      WholeRing(w.prices + [mid]);
      hide Wrapped, Rotated;
    }
  }

  function Start(w: Window, size: nat): nat {
    if |w.prices| < size then 0 else w.idx
  }

  /** Stepping round the ring from its start visits the prices in arrival order. */
  lemma WalkAt(w: Window, size: nat, k: nat)
    requires Valid(w, size) && k < |w.prices|
    ensures |Chronological(w, size)| == |w.prices|
    ensures Wrapped(Start(w, size) + k, |w.prices|) < |w.prices|
    ensures Chronological(w, size)[k] == w.prices[Wrapped(Start(w, size) + k, |w.prices|)]
    ensures k == 0 ==> Wrapped(Start(w, size), |w.prices|) == Start(w, size)
  {
    hide Wrapped;
    WrapsOnce(Start(w, size) + k, |w.prices|);
  }

  class TickVolatility {
    const window: nat
    const math: Math
    var prices: seq<real>
    var idx: nat
    var count: nat
    var stdev: real

    function Now(): Window
      reads this
    {
      Window(prices, idx)
    }

    constructor (window: nat, math: Math)
      requires window >= 1
      ensures this.window == window && this.math == math
      ensures Now() == Window([], 0) && stdev == 0.0
    {
      this.window, this.math := window, math;
      prices, idx, count, stdev := [], 0, 0, 0.0;
    }

    method Spread(returns_: seq<real>) returns (r: real)
      ensures r == if returns_ == [] then 0.0
                   else math.sqrt(SquaresAbout(returns_, Sum(returns_) / |returns_| as real) / |returns_| as real)
    {
      if returns_ == [] {
        return 0.0;
      }
      var n := |returns_|;
      var mean := 0.0;
      for k := 0 to n
        invariant mean == Sum(returns_[..k])
      {
        assert returns_[..k + 1][..k] == returns_[..k];
        mean := mean + returns_[k];
      }
      assert returns_[..n] == returns_;
      mean := mean / n as real;
      var sq := 0.0;
      for k := 0 to n
        invariant sq == SquaresAbout(returns_[..k], mean)
      {
        assert returns_[..k + 1][..k] == returns_[..k];
        sq := sq + (returns_[k] - mean) * (returns_[k] - mean);
      }
      r := math.sqrt(sq / n as real);
    }

    method LogReturns() returns (returns_: seq<real>)
      requires Valid(Now(), window) && |prices| >= 2
      ensures returns_ == Returns(math, Chronological(Now(), window))
    {
      ghost var walk := Chronological(Now(), window);
      var n := |prices|;
      var start := Start(Now(), window);
      returns_ := [];
      WalkAt(Now(), window, 0);
      hide Wrapped, Chronological, Valid, Returns, Start;
      ReturnsStart(math, walk);
      var prev := prices[start];
      for k := 1 to n
        invariant returns_ == Returns(math, walk[..k]) && prev == walk[k - 1]
      {
        WalkAt(Now(), window, k);
        ReturnsStep(math, walk, k);
        var p := prices[Wrapped(start + k, n)];
        if prev > 0.0 && p > 0.0 {
          returns_ := returns_ + [math.ln(p / prev)];
        }
        prev := p;
      }
      assert walk[..n] == walk;
    }

    method ComputeStdev() returns (r: real)
      requires Valid(Now(), window)
      ensures r == Stdev(math, Chronological(Now(), window))
    {
      if |prices| < 2 {
        return 0.0;
      }
      var returns_ := LogReturns();
      r := Spread(returns_);
    }

    method PushMid(mid: real)
      requires Valid(Now(), window)
      modifies this
      ensures Now() == Pushed(old(Now()), window, mid) && Valid(Now(), window)
      ensures stdev == if mid > 0.0 then Stdev(math, Chronological(Now(), window)) else old(stdev)
    {
      PushShifts(Now(), window, mid);
      if mid <= 0.0 {
        return;
      }
      if |prices| < window {
        prices := prices + [mid];
        if |prices| >= 2 {
          count := count + 1;
        }
      } else {
        prices := prices[idx := mid];
        idx := Wrapped(idx + 1, window);
      }
      var s := ComputeStdev();
      stdev := s;
    }
  }

  // ---- What the returns and their deviation are ----

  predicate AllPositive(ps: seq<real>) {
    forall i :: 0 <= i < |ps| ==> ps[i] > 0.0
  }

  /** One return for every pair of neighbours: the later price over the earlier. */
  lemma {:induction false} ReturnsAt(m: Math, ps: seq<real>)
    requires AllPositive(ps)
    ensures |Returns(m, ps)| == if ps == [] then 0 else |ps| - 1
    ensures forall k :: 0 <= k < |ps| - 1 ==> Returns(m, ps)[k] == m.ln(ps[k + 1] / ps[k])
    decreases |ps|
  {
    if |ps| < 2 {
    } else {
      ReturnsAt(m, ps[..|ps| - 1]);
    }
  }

  /** The logarithm of a product is the sum of the logarithms. */
  ghost predicate IsLogarithm(ln: real -> real) {
    forall x, y :: x > 0.0 && y > 0.0 ==> ln(x * y) == ln(x) + ln(y)
  }

  lemma QuotientsMultiply(a: real, b: real, c: real)
    requires a > 0.0 && b > 0.0 && c > 0.0
    ensures b / a > 0.0 && c / b > 0.0 && (b / a) * (c / b) == c / a
  {}

  lemma ProductAdds(ln: real -> real, x: real, y: real, z: real)
    requires IsLogarithm(ln) && x > 0.0 && y > 0.0 && x * y == z
    ensures ln(z) == ln(x) + ln(y)
  {}

  /** Logarithms of two moves in a row add up. */
  lemma MovesAdd(ln: real -> real, a: real, b: real, c: real)
    requires a > 0.0 && b > 0.0 && c > 0.0 && IsLogarithm(ln)
    ensures ln(c / a) == ln(b / a) + ln(c / b)
  {
    hide IsLogarithm;
    QuotientsMultiply(a, b, c);
    ProductAdds(ln, b / a, c / b, c / a);
  }

  lemma ReturnsGrow(m: Math, ps: seq<real>, n: nat)
    requires AllPositive(ps) && |ps| == n + 1 >= 2
    ensures Sum(Returns(m, ps)) == Sum(Returns(m, ps[..n])) + m.ln(ps[n] / ps[n - 1])
  {
    var front, r := Returns(m, ps[..n]), m.ln(ps[n] / ps[n - 1]);
    assert Returns(m, ps) == front + [r];
    assert (front + [r])[..|front|] == front;
    hide Returns;
  }

  /** The returns add up to the logarithm of the whole move. */
  lemma {:induction false} ReturnsTelescope(m: Math, ps: seq<real>)
    requires AllPositive(ps) && |ps| >= 2 && IsLogarithm(m.ln)
    ensures Sum(Returns(m, ps)) == m.ln(ps[|ps| - 1] / ps[0])
    decreases |ps|
  {
    var n := |ps| - 1;
    ReturnsGrow(m, ps, n);
    if n == 1 {
      assert Sum(Returns(m, ps[..1])) == 0.0;
    } else {
      hide Returns, Sum;
      ReturnsTelescope(m, ps[..n]);
      MovesAdd(m.ln, ps[0], ps[n - 1], ps[n]);
      hide IsLogarithm;
    }
  }

  function Squares(rs: seq<real>): real {
    if rs == [] then 0.0 else Squares(rs[..|rs| - 1]) + rs[|rs| - 1] * rs[|rs| - 1]
  }

  lemma {:induction false} SquaresAboutExpands(rs: seq<real>, mean: real)
    ensures SquaresAbout(rs, mean) == Squares(rs) - 2.0 * (mean * Sum(rs)) + |rs| as real * (mean * mean)
    decreases |rs|
  {
    if rs == [] {
    } else {
      var front, r := rs[..|rs| - 1], rs[|rs| - 1];
      SquaresAboutExpands(front, mean);
      assert (r - mean) * (r - mean) == r * r - 2.0 * (mean * r) + mean * mean;
      assert mean * Sum(rs) == mean * Sum(front) + mean * r;
      assert |rs| as real * (mean * mean) == |front| as real * (mean * mean) + mean * mean;
    }
  }

  lemma MeanTimes(sum: real, n: real)
    requires n > 0.0
    ensures sum / n * n == sum
  {}

  lemma AboutTheMean(squares: real, sum: real, mean: real, n: real, about: real)
    requires mean * n == sum && about == squares - 2.0 * (mean * sum) + n * (mean * mean)
    ensures about == squares - n * (mean * mean)
  {
    assert mean * sum == n * (mean * mean);
  }

  /** What is left about the mean is the sum of the squares less n times the mean squared. */
  lemma SquaresAboutMean(rs: seq<real>, mean: real)
    requires rs != [] && mean == Sum(rs) / |rs| as real
    ensures SquaresAbout(rs, mean) == Squares(rs) - |rs| as real * (mean * mean)
  {
    SquaresAboutExpands(rs, mean);
    MeanTimes(Sum(rs), |rs| as real);
    hide *;
    AboutTheMean(Squares(rs), Sum(rs), mean, |rs| as real, SquaresAbout(rs, mean));
  }

  lemma {:induction false} SquaresAreNonnegative(rs: seq<real>, mean: real)
    ensures SquaresAbout(rs, mean) >= 0.0
    decreases |rs|
  {
    if rs == [] {
    } else {
      SquaresAreNonnegative(rs[..|rs| - 1], mean);
      var d := rs[|rs| - 1] - mean;
      assert d * d >= 0.0;
    }
  }

  lemma Quotient(x: real, n: real) returns (q: real)
    requires n > 0.0
    ensures q == x / n && q * n == x && (x >= 0.0 ==> q >= 0.0)
  {
    q := x / n;
  }

  /** The population variance of the returns, by their first two moments. */
  lemma VarianceIs(m: Math, ps: seq<real>, rs: seq<real>) returns (mean: real, variance: real)
    requires rs == Returns(m, ps) && rs != []
    ensures mean * |rs| as real == Sum(rs)
    ensures variance * |rs| as real == Squares(rs) - |rs| as real * (mean * mean)
    ensures variance >= 0.0 && Stdev(m, ps) == m.sqrt(variance)
  {
    hide Returns, Sum, Squares, SquaresAbout;
    mean := Quotient(Sum(rs), |rs| as real);
    variance := Quotient(SquaresAbout(rs, mean), |rs| as real);
    assert Stdev(m, ps) == m.sqrt(variance);
    hide *;
    SquaresAreNonnegative(rs, mean);
    SquaresAboutMean(rs, mean);
  }

  /** The deviation is the population one: the root of a variance that, times n, is the sum
      of the squared returns less n times the square of their mean. */
  lemma DeviationIsOfMoments(m: Math, ps: seq<real>) returns (mean: real, variance: real)
    requires AllPositive(ps) && |ps| >= 2
    ensures var rs, n := Returns(m, ps), (|ps| - 1) as real;
            && mean * n == Sum(rs) && variance * n == Squares(rs) - n * (mean * mean)
            && variance >= 0.0 && Stdev(m, ps) == m.sqrt(variance)
  {
    ReturnsAt(m, ps);
    hide *;
    mean, variance := VarianceIs(m, ps, Returns(m, ps));
  }

  // ---- Whole feeds ----

  function After(size: nat, mids: seq<real>): (w: Window)
    requires size >= 1
    ensures Valid(w, size)
  {
    if mids == [] then Window([], 0)
    else
      var w := After(size, mids[..|mids| - 1]);
      PushShifts(w, size, mids[|mids| - 1]);
      Pushed(w, size, mids[|mids| - 1])
  }

  /** The value on offer to readers after a feed. */
  function Published(m: Math, size: nat, mids: seq<real>): real
    requires size >= 1
  {
    if mids == [] then 0.0
    else if mids[|mids| - 1] > 0.0 then Stdev(m, Chronological(After(size, mids), size))
    else Published(m, size, mids[..|mids| - 1])
  }

  lemma LastGrows(ps: seq<real>, mid: real, size: nat)
    ensures size >= 1 ==> Last(Last(ps, size) + [mid], size) == Last(ps + [mid], size)
  {
    if size >= 1 && |ps| >= size {
      assert Last(ps, size) + [mid] == (ps + [mid])[|ps| - size..];
    }
  }

  /** The walk visits exactly the latest positive mids, in arrival order. */
  lemma {:induction false} WalkIsSuffix(size: nat, mids: seq<real>)
    requires size >= 1
    ensures Chronological(After(size, mids), size) == Last(Positives(mids), size)
    decreases |mids|
  {
    if mids == [] {
    } else {
      hide Wrapped, Pushed, Chronological, Last;
      var front, mid := mids[..|mids| - 1], mids[|mids| - 1];
      WalkIsSuffix(size, front);
      PushShifts(After(size, front), size, mid);
      LastGrows(Positives(front), mid, size);
    }
  }

  lemma PositivesOfLast(mids: seq<real>)
    requires mids != []
    ensures mids[|mids| - 1] <= 0.0 ==> Positives(mids) == Positives(mids[..|mids| - 1])
  {}

  /** What readers see is the deviation of the latest positive mids alone. */
  lemma {:induction false} PublishedIsOfSuffix(m: Math, size: nat, mids: seq<real>)
    requires size >= 1
    ensures Published(m, size, mids) == Stdev(m, Last(Positives(mids), size))
    decreases |mids|
  {
    if mids == [] {
    } else {
      hide Stdev, Chronological, After, Last, Positives;
      PositivesOfLast(mids);
      WalkIsSuffix(size, mids);
      PublishedIsOfSuffix(m, size, mids[..|mids| - 1]);
    }
  }

  lemma {:induction false} PositivesAppend(a: seq<real>, b: seq<real>)
    ensures Positives(a + b) == Positives(a) + Positives(b)
    decreases |b|
  {
    if b == [] {
      assert a + b == a;
    } else {
      assert (a + b)[..|a| + |b| - 1] == a + b[..|b| - 1];
      PositivesAppend(a, b[..|b| - 1]);
    }
  }

  /** A windowful of positive mids wipes out everything before it. */
  lemma FeedIsForgotten(m: Math, size: nat, before: seq<real>, mids: seq<real>)
    requires size >= 1 && |Positives(mids)| >= size
    ensures Published(m, size, before + mids) == Published(m, size, mids)
  {
    PublishedIsOfSuffix(m, size, before + mids);
    PublishedIsOfSuffix(m, size, mids);
    PositivesAppend(before, mids);
    hide Stdev, Published;
    assert Last(Positives(before) + Positives(mids), size) == Last(Positives(mids), size);
  }
}
