// The sliding-window z-score detector (controller/anomaly.py), in exact arithmetic.
module Anomaly {
  // A value as detect sees it: a finite number, or something it ignores.
  datatype Sample = Ignored | Finite(v: real)

  const METRICS := {"latency", "errors", "events"}

  // A baseline needs this many earlier values.
  const BASELINE: nat := 5

  function Sum(xs: seq<real>): real {
    if xs == [] then 0.0 else xs[0] + Sum(xs[1..])
  }

  function Mean(xs: seq<real>): real
    requires xs != []
  {
    Sum(xs) / |xs| as real
  }

  function Product(x: real, y: real): real {
    x * y
  }

  function Square(x: real): real {
    Product(x, x)
  }

  function SquaredDeviations(xs: seq<real>, m: real): real {
    if xs == [] then 0.0 else Square(xs[0] - m) + SquaredDeviations(xs[1..], m)
  }

  // The sample variance, the square of statistics.stdev.
  function Variance(xs: seq<real>): real
    requires |xs| >= 2
  {
    SquaredDeviations(xs, Mean(xs)) / (|xs| - 1) as real
  }

  // |v - mean| / stdev > z, compared by squares.
  predicate IsAnomaly(z: real, window: seq<real>, v: real) {
    |window| >= BASELINE
    && if Variance(window) == 0.0 then v != Mean(window)
       else Square(v - Mean(window)) > Square(z) * Variance(window)
  }

  // deque(maxlen=size).append
  function Push(size: nat, window: seq<real>, v: real): seq<real> {
    LastOf(size, window + [v])
  }

  function LastOf(size: nat, xs: seq<real>): seq<real> {
    if |xs| <= size then xs else xs[|xs| - size..]
  }

  type Windows = map<string, seq<real>>

  datatype Call = Call(metric: string, sample: Sample)

  predicate Accepts(w: Windows, call: Call) {
    call.metric in w && call.sample.Finite?
  }

  function Answer(z: real, w: Windows, call: Call): bool {
    Accepts(w, call) && IsAnomaly(z, w[call.metric], call.sample.v)
  }

  function After(size: nat, w: Windows, call: Call): Windows {
    if Accepts(w, call) then w[call.metric := Push(size, w[call.metric], call.sample.v)] else w
  }

  class AnomalyDetector {
    const windowSize: nat
    const zThreshold: real
    var windows: Windows

    constructor (windowSize: nat, zThreshold: real)
      requires windowSize >= 5 && zThreshold > 0.0
      ensures this.windowSize == windowSize && this.zThreshold == zThreshold
      ensures windows.Keys == METRICS && forall m :: m in windows ==> windows[m] == []
    {
      this.windowSize, this.zThreshold := windowSize, zThreshold;
      windows := map m | m in METRICS :: [];
    }

    // null stands for the ValueError about a short window or a threshold that is not positive.
    static method Create(windowSize: int, zThreshold: real) returns (detector: AnomalyDetector?)
      ensures detector != null <==> windowSize >= BASELINE && zThreshold > 0.0
      ensures detector != null ==>
        && fresh(detector) && detector.windowSize == windowSize && detector.zThreshold == zThreshold
        && detector.windows.Keys == {"latency", "errors", "events"} && forall m :: m in detector.windows ==> detector.windows[m] == []
    {
      if windowSize < 5 || zThreshold <= 0.0 {
        return null;
      }
      detector := new AnomalyDetector(windowSize, zThreshold);
    }

    method Detect(metric: string, sample: Sample) returns (anomalous: bool)
      modifies this
      ensures anomalous == Answer(zThreshold, old(windows), Call(metric, sample))
      ensures windows == After(windowSize, old(windows), Call(metric, sample))
    {
      anomalous := false;
      if metric !in windows || sample.Ignored? {
        return;
      }
      var window, candidate := windows[metric], sample.v;
      if |window| >= 5 {
        var m, variance := Mean(window), Variance(window);
        if variance == 0.0 {
          anomalous := candidate != m;
        } else {
          anomalous := Square(candidate - m) > Square(zThreshold) * variance;
        }
      }
      var longer := window + [candidate];
      windows := windows[metric := if |longer| > windowSize then longer[|longer| - windowSize..] else longer];
    }
  }

  // ---- The comparison by squares ----

  lemma ProductOrder(x: real, y: real, k: real)
    requires x > y && k > 0.0
    ensures x * k > y * k
  {}

  lemma ProductSign(x: real, y: real)
    requires x > 0.0 && y > 0.0
    ensures Product(x, y) > 0.0 && Product(-x, -y) == Product(x, y)
  {}

  lemma SquareSign(x: real)
    ensures Square(x) >= 0.0 && (Square(x) == 0.0 <==> x == 0.0)
  {
    if x > 0.0 {
      ProductSign(x, x);
    } else if x < 0.0 {
      ProductSign(-x, -x);
      assert --x == x;
    } else {
      assert Product(x, x) == 0.0;
    }
  }

  lemma ProductGrows(x: real, y: real, u: real, v: real)
    requires x > y >= 0.0 && u > v >= 0.0
    ensures Product(x, u) > Product(y, v)
  {
    ProductOrder(x, y, u);
    if y > 0.0 {
      ProductOrder(u, v, y);
    }
  }

  lemma SquareOrder(x: real, y: real)
    requires x >= 0.0 && y >= 0.0
    ensures x > y <==> Square(x) > Square(y)
  {
    if x > y {
      ProductGrows(x, y, x, y);
    } else if y > x {
      ProductGrows(y, x, y, x);
    }
  }

  lemma QuotientExceeds(d: real, sd: real, z: real)
    requires sd > 0.0
    ensures d / sd > z <==> d > z * sd
  {
    var q := d / sd;
    assert q * sd == d;
    if q > z {
      ProductOrder(q, z, sd);
    } else if z > q {
      ProductOrder(z, q, sd);
    }
  }

  // For any standard deviation, that is, non-negative root of the variance, the test is the z-score's.
  lemma SquaresCompareZScores(z: real, window: seq<real>, v: real, sd: real)
    requires |window| >= BASELINE && z > 0.0
    requires sd >= 0.0 && Square(sd) == Variance(window)
    ensures IsAnomaly(z, window, v) <==>
      if sd == 0.0 then v != Mean(window)
      else (if v >= Mean(window) then v - Mean(window) else Mean(window) - v) / sd > z
  {
    if sd == 0.0 {
      assert Square(sd) == 0.0;
    } else {
      ProductOrder(sd, 0.0, sd);
      var d := if v >= Mean(window) then v - Mean(window) else Mean(window) - v;
      assert Square(d) == Square(v - Mean(window));
      QuotientExceeds(d, sd, z);
      SquareOrder(d, z * sd);
      SquareOfProduct(z, sd);
    }
  }

  lemma SquareOfProduct(x: real, y: real)
    ensures Square(x * y) == Square(x) * Square(y)
  {
    assert (x * y) * (x * y) == (x * x) * (y * y) by {
      assert (x * y) * (x * y) == x * (y * (x * y));
      assert y * (x * y) == x * (y * y);
    }
  }

  // ---- Zero variance ----

  predicate AllEqual(xs: seq<real>, v: real) {
    forall i :: 0 <= i < |xs| ==> xs[i] == v
  }

  lemma {:induction false} DeviationsAreNonNegative(xs: seq<real>, m: real)
    ensures SquaredDeviations(xs, m) >= 0.0
    ensures SquaredDeviations(xs, m) == 0.0 <==> AllEqual(xs, m)
  {
    if xs != [] {
      DeviationsAreNonNegative(xs[1..], m);
      SquareSign(xs[0] - m);
      assert AllEqual(xs, m) <==> xs[0] == m && AllEqual(xs[1..], m) by {
        assert forall i :: 0 < i < |xs| ==> xs[i] == xs[1..][i - 1];
        assert forall i :: 0 <= i < |xs| - 1 ==> xs[1..][i] == xs[i + 1];
      }
    }
  }

  lemma {:induction false} SumOfEqual(xs: seq<real>, v: real)
    requires AllEqual(xs, v)
    ensures Sum(xs) == |xs| as real * v
  {
    if xs != [] {
      SumOfEqual(xs[1..], v);
      assert Sum(xs) == v + (|xs| - 1) as real * v;
      assert v + (|xs| - 1) as real * v == |xs| as real * v;
    }
  }

  // The zero-variance branch is taken exactly when all window values are equal.
  lemma ZeroVariance(xs: seq<real>)
    requires |xs| >= 2
    ensures Variance(xs) >= 0.0
    ensures Variance(xs) == 0.0 <==> AllEqual(xs, xs[0])
  {
    DeviationsAreNonNegative(xs, Mean(xs));
    var n, d := (|xs| - 1) as real, SquaredDeviations(xs, Mean(xs));
    QuotientSign(d, n);
    if AllEqual(xs, xs[0]) {
      SumOfEqual(xs, xs[0]);
      QuotientCancels(xs[0], |xs| as real);
    }
  }

  lemma QuotientSign(d: real, n: real)
    requires d >= 0.0 && n > 0.0
    ensures d / n >= 0.0 && (d / n == 0.0 <==> d == 0.0)
  {
    assert (d / n) * n == d;
  }

  lemma QuotientCancels(x: real, n: real)
    requires n > 0.0
    ensures (n * x) / n == x
  {}

  // ---- The sample variance ----

  function SquaresFrom(x: real, xs: seq<real>): real {
    if xs == [] then 0.0 else Square(x - xs[0]) + SquaresFrom(x, xs[1..])
  }

  // The squared differences of all pairs.
  function PairSquares(xs: seq<real>): real {
    if xs == [] then 0.0 else SquaresFrom(xs[0], xs[1..]) + PairSquares(xs[1..])
  }

  function SumOfSquares(xs: seq<real>): real {
    if xs == [] then 0.0 else Square(xs[0]) + SumOfSquares(xs[1..])
  }

  lemma SquareOfDifferenceOf(x: real, y: real)
    ensures Square(x - y) == Square(x) - 2.0 * Product(x, y) + Square(y)
  {}

  lemma Distributes(k: real, x: real, y: real)
    ensures Product(k, x + y) == Product(k, x) + Product(k, y) && Product(k + x, y) == Product(k, y) + Product(x, y)
    ensures Product(x, y) == Product(y, x)
  {}

  // The step of the expansion below, for any numbers.
  lemma DeviationStep(x: real, c: real, q: real, s: real, n: real)
    ensures Square(x - c) + (q - 2.0 * Product(c, s) + Product(n, Square(c)))
         == (Square(x) + q) - 2.0 * Product(c, x + s) + Product(n + 1.0, Square(c))
  {
    SquareOfDifferenceOf(x, c);
    Distributes(c, x, s);
    Distributes(n, 1.0, Square(c));
    assert Product(1.0, Square(c)) == Square(c);
  }

  lemma {:induction false} DeviationsExpand(xs: seq<real>, c: real)
    ensures SquaredDeviations(xs, c) == SumOfSquares(xs) - 2.0 * Product(c, Sum(xs)) + Product(|xs| as real, Square(c))
  {
    if xs == [] {
      assert Product(c, 0.0) == 0.0 && Product(0.0, Square(c)) == 0.0;
    } else {
      DeviationsExpand(xs[1..], c);
      DeviationStep(xs[0], c, SumOfSquares(xs[1..]), Sum(xs[1..]), |xs[1..]| as real);
      assert |xs| as real == |xs[1..]| as real + 1.0;
    }
  }

  lemma SquareIsEven(x: real, y: real)
    ensures Square(x - y) == Square(y - x)
  {
    SquareOfDifferenceOf(x, y);
    SquareOfDifferenceOf(y, x);
    Distributes(0.0, x, y);
  }

  lemma {:induction false} SquaresFromIsDeviations(x: real, xs: seq<real>)
    ensures SquaresFrom(x, xs) == SquaredDeviations(xs, x)
  {
    if xs != [] {
      SquaresFromIsDeviations(x, xs[1..]);
      SquareIsEven(x, xs[0]);
    }
  }

  lemma PairStep(x: real, q: real, s: real, n: real)
    ensures (q - 2.0 * Product(x, s) + Product(n, Square(x))) + (Product(n, q) - Square(s))
         == Product(n + 1.0, Square(x) + q) - Square(x + s)
  {
    Distributes(n, 1.0, Square(x) + q);
    Distributes(n, Square(x), q);
    assert Product(1.0, Square(x) + q) == Square(x) + q;
    assert Square(x + s) == Square(x) + 2.0 * Product(x, s) + Square(s) by {
      Distributes(x, s, x + s);
      Distributes(x, x, s);
      Distributes(s, x, s);
    }
  }

  lemma {:induction false} PairsExpand(xs: seq<real>)
    ensures PairSquares(xs) == Product(|xs| as real, SumOfSquares(xs)) - Square(Sum(xs))
  {
    if xs == [] {
      assert Product(0.0, 0.0) == 0.0;
    } else {
      var x, tail := xs[0], xs[1..];
      PairsExpand(tail);
      SquaresFromIsDeviations(x, tail);
      DeviationsExpand(tail, x);
      PairStep(x, SumOfSquares(tail), Sum(tail), |tail| as real);
      assert |xs| as real == |tail| as real + 1.0;
    }
  }

  lemma MeanCancels(n: real, m: real, q: real)
    ensures Product(n, q - 2.0 * Product(m, Product(m, n)) + Product(n, Square(m))) == Product(n, q) - Square(Product(m, n))
  {
    assert Product(m, Product(m, n)) == Product(n, Square(m));
    Distributes(n, q, 0.0 - Product(n, Square(m)));
    assert Square(Product(m, n)) == Product(n, Product(n, Square(m)));
    assert Product(n, 0.0 - Product(n, Square(m))) == 0.0 - Product(n, Product(n, Square(m)));
  }

  lemma QuotientTimes(d: real, n: real)
    requires n != 0.0
    ensures Product(n, d / n) == d && Product(d / n, n) == d
  {}

  // n (n - 1) times the variance of n values is the sum of the squared differences of all their pairs,
  // which names no mean and no divisor.
  lemma VarianceByPairs(xs: seq<real>)
    requires |xs| >= 2
    ensures Product(|xs| as real, Product((|xs| - 1) as real, Variance(xs))) == PairSquares(xs)
  {
    var n, m := |xs| as real, Mean(xs);
    QuotientTimes(Sum(xs), n);
    QuotientTimes(SquaredDeviations(xs, m), (|xs| - 1) as real);
    DeviationsExpand(xs, m);
    PairsExpand(xs);
    MeanCancels(n, m, SumOfSquares(xs));
  }

  // With an unchanging history only a different value is an anomaly, and only from five values on.
  lemma BaselineIsFive(z: real, v: real, history: real, window: seq<real>)
    requires AllEqual(window, history)
    ensures IsAnomaly(z, window, v) <==> |window| >= 5 && v != history
  {
    if |window| >= 5 {
      ZeroVariance(window);
      SumOfEqual(window, history);
      QuotientCancels(history, |window| as real);
    }
  }

  // ---- Affine changes of scale ----

  function Affine(x: real, a: real, b: real): real {
    a * x + b
  }

  function Scale(xs: seq<real>, a: real, b: real): (ys: seq<real>)
    ensures |ys| == |xs| && forall i :: 0 <= i < |xs| ==> ys[i] == Affine(xs[i], a, b)
  {
    seq(|xs|, i requires 0 <= i < |xs| => Affine(xs[i], a, b))
  }

  lemma ScaleTail(xs: seq<real>, a: real, b: real)
    requires xs != []
    ensures Scale(xs, a, b)[0] == a * xs[0] + b && Scale(xs, a, b)[1..] == Scale(xs[1..], a, b)
  {
    assert forall i :: 0 <= i < |xs| - 1 ==> xs[1..][i] == xs[i + 1];
  }

  lemma {:induction false} ScaledSum(xs: seq<real>, a: real, b: real)
    ensures Sum(Scale(xs, a, b)) == a * Sum(xs) + |xs| as real * b
  {
    if xs != [] {
      ScaleTail(xs, a, b);
      ScaledSum(xs[1..], a, b);
      var s := Sum(xs[1..]);
      assert a * Sum(xs) == a * xs[0] + a * s;
      assert |xs| as real * b == b + (|xs| - 1) as real * b;
    }
  }

  lemma ScaledMean(xs: seq<real>, a: real, b: real)
    requires xs != []
    ensures Mean(Scale(xs, a, b)) == a * Mean(xs) + b
  {
    ScaledSum(xs, a, b);
    var n, m := |xs| as real, Mean(xs);
    assert Sum(xs) == m * n;
    assert a * Sum(xs) + n * b == (a * m + b) * n by {
      assert a * (m * n) == (a * m) * n;
      assert (a * m + b) * n == (a * m) * n + b * n;
    }
    QuotientCancels(a * m + b, n);
  }

  lemma SquareOfDifference(x: real, m: real, a: real, b: real)
    ensures Square((a * x + b) - (a * m + b)) == Square(a) * Square(x - m)
  {
    assert (a * x + b) - (a * m + b) == a * (x - m);
    SquareOfProduct(a, x - m);
  }

  lemma ScaledTerm(x: real, m: real, a: real, b: real)
    ensures Square((a * x + b) - (a * m + b)) == Product(Square(a), Square(x - m))
  {
    SquareOfDifference(x, m, a, b);
  }

  lemma {:induction false} ScaledDeviations(xs: seq<real>, m: real, a: real, b: real, c: real)
    requires c == a * m + b
    ensures SquaredDeviations(Scale(xs, a, b), c) == Product(Square(a), SquaredDeviations(xs, m))
  {
    if xs == [] {
      assert Product(Square(a), 0.0) == 0.0;
    } else {
      ScaleTail(xs, a, b);
      ScaledDeviations(xs[1..], m, a, b, c);
      ScaledTerm(xs[0], m, a, b);
      Distributes(Square(a), Square(xs[0] - m), SquaredDeviations(xs[1..], m));
    }
  }

  lemma ScaledVariance(xs: seq<real>, a: real, b: real)
    requires |xs| >= 2
    ensures Variance(Scale(xs, a, b)) == Square(a) * Variance(xs)
  {
    ScaledMean(xs, a, b);
    var ys, n := Scale(xs, a, b), (|xs| - 1) as real;
    ScaledDeviations(xs, Mean(xs), a, b, Mean(ys));
    QuotientOfProduct(Square(a), SquaredDeviations(xs, Mean(xs)), n);
  }

  lemma QuotientOfProduct(k: real, d: real, n: real)
    requires n > 0.0
    ensures Product(k, d) / n == k * (d / n)
  {
    var q := d / n;
    assert d == q * n;
    assert k * (q * n) == n * (k * q);
    QuotientCancels(k * q, n);
  }

  lemma ZeroProduct(k: real, x: real)
    requires k != 0.0
    ensures k * x == 0.0 <==> x == 0.0
  {
    if k * x == 0.0 {
      assert x == (k * x) / k;
    }
  }

  // One answer does not depend on the unit or the zero of the scale.
  lemma AnswerIsAffineInvariant(z: real, window: seq<real>, v: real, a: real, b: real)
    requires a != 0.0
    ensures IsAnomaly(z, Scale(window, a, b), Affine(v, a, b)) == IsAnomaly(z, window, v)
  {
    if |window| >= BASELINE {
      ScaledMean(window, a, b);
      ScaledVariance(window, a, b);
      SquareOfDifference(v, Mean(window), a, b);
      var k, s, t := Square(a), Square(v - Mean(window)), Square(z) * Variance(window);
      SquareSign(a);
      ZeroProduct(k, Variance(window));
      ZeroProduct(a, v - Mean(window));
      assert a * v + b - (a * Mean(window) + b) == a * (v - Mean(window));
      assert Square(z) * (k * Variance(window)) == k * t;
      if s > t {
        ProductOrder(s, t, k);
      } else if t > s {
        ProductOrder(t, s, k);
      }
      assert k * s > k * t <==> s > t;
    }
  }

  // ---- Runs ----

  function Answers(z: real, size: nat, w: Windows, calls: seq<Call>): seq<bool> {
    if calls == [] then []
    else [Answer(z, w, calls[0])] + Answers(z, size, After(size, w, calls[0]), calls[1..])
  }

  // Every sample v of one metric replaced by a * v + b.
  function ScaleCall(call: Call, metric: string, a: real, b: real): Call {
    if call.metric == metric && call.sample.Finite? then Call(metric, Finite(Affine(call.sample.v, a, b))) else call
  }

  function ScaleCalls(calls: seq<Call>, metric: string, a: real, b: real): seq<Call> {
    if calls == [] then [] else [ScaleCall(calls[0], metric, a, b)] + ScaleCalls(calls[1..], metric, a, b)
  }

  function ScaleWindows(w: Windows, metric: string, a: real, b: real): Windows {
    map m | m in w :: if m == metric then Scale(w[m], a, b) else w[m]
  }

  lemma ScaleLastOf(size: nat, xs: seq<real>, a: real, b: real)
    ensures LastOf(size, Scale(xs, a, b)) == Scale(LastOf(size, xs), a, b)
  {
    if |xs| > size {
      var from := |xs| - size;
      var ys, zs := Scale(xs, a, b)[from..], Scale(xs[from..], a, b);
      assert |ys| == |zs|;
      forall i | 0 <= i < |ys| ensures ys[i] == zs[i] {
        assert xs[from..][i] == xs[from + i];
      }
    }
  }

  lemma ScaleAfter(size: nat, w: Windows, call: Call, metric: string, a: real, b: real)
    ensures After(size, ScaleWindows(w, metric, a, b), ScaleCall(call, metric, a, b))
         == ScaleWindows(After(size, w, call), metric, a, b)
  {
    if Accepts(w, call) && call.metric == metric {
      var xs, v := w[metric], call.sample.v;
      assert Scale(xs, a, b) + [Affine(v, a, b)] == Scale(xs + [v], a, b);
      ScaleLastOf(size, xs + [v], a, b);
    }
  }

  // Over whole runs, an affine change of one metric's samples leaves every answer unchanged.
  lemma {:induction false} RunIsAffineInvariant(z: real, size: nat, w: Windows, calls: seq<Call>,
                                                metric: string, a: real, b: real)
    requires a != 0.0
    ensures Answers(z, size, ScaleWindows(w, metric, a, b), ScaleCalls(calls, metric, a, b)) == Answers(z, size, w, calls)
    decreases |calls|
  {
    if calls != [] {
      var scaled := ScaleWindows(w, metric, a, b);
      var call := ScaleCall(calls[0], metric, a, b);
      ScaleAfter(size, w, calls[0], metric, a, b);
      if Accepts(w, calls[0]) && calls[0].metric == metric {
        AnswerIsAffineInvariant(z, w[metric], calls[0].sample.v, a, b);
      }
      assert Answer(z, scaled, call) == Answer(z, w, calls[0]);
      RunIsAffineInvariant(z, size, After(size, w, calls[0]), calls[1..], metric, a, b);
      assert ScaleCalls(calls, metric, a, b)[1..] == ScaleCalls(calls[1..], metric, a, b);
    }
  }

  function RunWindows(size: nat, w: Windows, calls: seq<Call>): Windows {
    if calls == [] then w else After(size, RunWindows(size, w, calls[..|calls| - 1]), calls[|calls| - 1])
  }

  // The values of one metric accepted in a run, oldest first.
  function Accepted(calls: seq<Call>, metric: string): seq<real> {
    if calls == [] then []
    else
      var last := calls[|calls| - 1];
      Accepted(calls[..|calls| - 1], metric)
      + if last.metric == metric && last.sample.Finite? then [last.sample.v] else []
  }

  // Each window is an end of its metric's accepted values, all of them or size many.
  lemma WindowsAreEnds(size: nat, w: Windows, calls: seq<Call>, metric: string)
    requires metric in w && w[metric] == []
    ensures metric in RunWindows(size, w, calls)
    ensures var all, window := Accepted(calls, metric), RunWindows(size, w, calls)[metric];
      |window| == (if |all| <= size then |all| else size) && window == all[|all| - |window|..]
  {
    WindowsHoldLatest(size, w, calls, metric);
  }

  // Each window holds the last at most size accepted values of its own metric.
  lemma {:induction false} WindowsHoldLatest(size: nat, w: Windows, calls: seq<Call>, metric: string)
    requires metric in w && w[metric] == []
    ensures metric in RunWindows(size, w, calls)
    ensures RunWindows(size, w, calls)[metric] == LastOf(size, Accepted(calls, metric))
  {
    if calls != [] {
      WindowsHoldLatest(size, w, calls[..|calls| - 1], metric);
      var call := calls[|calls| - 1];
      if call.metric == metric && call.sample.Finite? {
        PushLastOf(size, Accepted(calls[..|calls| - 1], metric), call.sample.v);
      }
    }
  }

  lemma PushLastOf(size: nat, xs: seq<real>, v: real)
    ensures Push(size, LastOf(size, xs), v) == LastOf(size, xs + [v])
  {}
}
