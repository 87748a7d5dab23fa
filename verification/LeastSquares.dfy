/** Fitting a complexity curve to timings: both `MinimalLeastSq` functions of
    benchmark/src/complexity.cc, over the reals.

    `log2` is a parameter.  The root mean square is compared through its signed square, which orders
    the same way; it is None where the division yields no number (an all-zero curve or a zero mean). */
module LeastSquares {
  import opened Common

  datatype BigO = ONone | O1 | ON | ONSquared | ONCubed | OLogN | ONLogN | OAuto | OLambda

  datatype LeastSq = LeastSq(coef: Option<real>, rms: Option<real>, complexity: BigO)

  function FittingCurve(c: BigO, lg: int -> real): int -> real {
    match c
    case ON => (n: int) => n as real
    case ONSquared => (n: int) => n as real * n as real
    case ONCubed => (n: int) => n as real * n as real * n as real
    case OLogN => lg
    case ONLogN => (n: int) => n as real * lg(n)
    case _ => (n: int) => 1.0
  }

  // ----- Sums over the first k measurements -----

  function SumGG(n: seq<int>, g: int -> real, k: nat): real
    requires k <= |n|
  {
    if k == 0 then 0.0 else SumGG(n, g, k - 1) + Square(g(n[k - 1]))
  }

  function SumTG(n: seq<int>, time: seq<real>, g: int -> real, k: nat): real
    requires k <= |n| == |time|
  {
    if k == 0 then 0.0 else SumTG(n, time, g, k - 1) + Times(time[k - 1], g(n[k - 1]))
  }

  function SumT(time: seq<real>, k: nat): real
    requires k <= |time|
  {
    if k == 0 then 0.0 else SumT(time, k - 1) + time[k - 1]
  }

  function SumTT(time: seq<real>, k: nat): real
    requires k <= |time|
  {
    if k == 0 then 0.0 else SumTT(time, k - 1) + Square(time[k - 1])
  }

  function Times(x: real, y: real): real {
    x * y
  }

  function Square(x: real): real {
    Times(x, x)
  }

  /** The sum of squared residuals of the fit coef * g. */
  function Residual(n: seq<int>, time: seq<real>, g: int -> real, coef: real, k: nat): real
    requires k <= |n| == |time|
  {
    if k == 0 then 0.0 else Residual(n, time, g, coef, k - 1) + Square(time[k - 1] - Times(coef, g(n[k - 1])))
  }

  function Total(n: seq<int>, time: seq<real>, g: int -> real, coef: real): real
    requires |n| == |time|
  {
    Residual(n, time, g, coef, |n|)
  }

  // ----- The coefficient is optimal -----

  /** The residual as a polynomial in the coefficient. */
  function Quadratic(tt: real, tg: real, gg: real, c: real): real {
    tt - 2.0 * Times(c, tg) + Times(Square(c), gg)
  }

  lemma QuadraticAdds(tt: real, tg: real, gg: real, c: real, t: real, y: real)
    ensures Quadratic(tt + Square(t), tg + Times(t, y), gg + Square(y), c)
         == Quadratic(tt, tg, gg, c) + Square(t - Times(c, y))
  {
    assert Square(t - Times(c, y)) == t * t - 2.0 * c * (t * y) + c * c * (y * y);
    Distribute(c, tg, t * y);
    Distribute(c * c, gg, y * y);
  }

  lemma Distribute(a: real, x: real, y: real)
    ensures a * (x + y) == a * x + a * y
  {
  }

  lemma {:induction false} Expand(n: seq<int>, time: seq<real>, g: int -> real, c: real, k: nat)
    requires k <= |n| == |time|
    ensures Residual(n, time, g, c, k) == Quadratic(SumTT(time, k), SumTG(n, time, g, k), SumGG(n, g, k), c)
  {
    if k > 0 {
      Expand(n, time, g, c, k - 1);
      QuadraticAdds(SumTT(time, k - 1), SumTG(n, time, g, k - 1), SumGG(n, g, k - 1), c, time[k - 1], g(n[k - 1]));
    }
  }

  lemma {:induction false} SumGGNonNegative(n: seq<int>, g: int -> real, k: nat)
    requires k <= |n|
    ensures SumGG(n, g, k) >= 0.0
  {
    if k > 0 { SumGGNonNegative(n, g, k - 1); }
  }

  /** Any other coefficient is worse, by exactly its squared distance times the sum of squares. */
  lemma CoefficientIsBest(n: seq<int>, time: seq<real>, g: int -> real, c: real)
    requires |n| == |time| && SumGG(n, g, |n|) != 0.0
    ensures var best := SumTG(n, time, g, |n|) / SumGG(n, g, |n|);
      && Total(n, time, g, c) == Total(n, time, g, best) + Times(Square(c - best), SumGG(n, g, |n|))
      && Total(n, time, g, best) <= Total(n, time, g, c)
      && (Total(n, time, g, c) == Total(n, time, g, best) ==> c == best)
  {
    var gg, tg := SumGG(n, g, |n|), SumTG(n, time, g, |n|);
    SumGGNonNegative(n, g, |n|);
    Expand(n, time, g, c, |n|);
    Expand(n, time, g, tg / gg, |n|);
    Parabola(SumTT(time, |n|), tg, gg, c);
    SquareTimes(c - tg / gg, gg);
  }

  lemma Parabola(tt: real, tg: real, gg: real, c: real)
    requires gg != 0.0
    ensures Quadratic(tt, tg, gg, c) == Quadratic(tt, tg, gg, tg / gg) + Times(Square(c - tg / gg), gg)
  {
    var b := tg / gg;
    assert tg == b * gg;
    assert Square(c - b) == c * c - 2.0 * c * b + b * b;
    assert Square(c - b) * gg == c * c * gg - 2.0 * c * (b * gg) + b * (b * gg);
    assert b * b * gg == b * tg;
  }

  lemma TimesPositive(x: real, y: real)
    requires (x > 0.0 && y > 0.0) || (x < 0.0 && y < 0.0)
    ensures Times(x, y) > 0.0
  {
  }

  lemma SquareTimes(x: real, s: real)
    requires s > 0.0
    ensures Times(Square(x), s) >= 0.0 && (Times(Square(x), s) == 0.0 ==> x == 0.0)
  {
    if x != 0.0 {
      TimesPositive(x, x);
      TimesPositive(Square(x), s);
    }
  }

  /** A curve that is zero at every size leaves the same residual whatever the coefficient. */
  lemma {:induction false} ZeroCurve(n: seq<int>, time: seq<real>, g: int -> real, c: real, k: nat)
    requires k <= |n| == |time| && SumGG(n, g, k) == 0.0
    ensures Residual(n, time, g, c, k) == SumTT(time, k)
  {
    if k > 0 {
      SumGGNonNegative(n, g, k - 1);
      var y := g(n[k - 1]);
      if y != 0.0 { TimesPositive(y, y); }
      ZeroCurve(n, time, g, c, k - 1);
      assert Times(c, y) == 0.0;
    }
  }

  // ----- The fit of one curve -----

  ghost function BestCoef(n: seq<int>, time: seq<real>, g: int -> real): real
    requires |n| == |time| && SumGG(n, g, |n|) != 0.0
  {
    SumTG(n, time, g, |n|) / SumGG(n, g, |n|)
  }

  /** The signed square of sqrt(rms / n) / mean. */
  function SignedSquare(rms: real, count: nat, mean: real): real
    requires count > 0 && mean != 0.0
  {
    TimesPositive(mean, mean);
    (rms / count as real) / (if mean > 0.0 then Square(mean) else -Square(mean))
  }

  ghost predicate IsFit(n: seq<int>, time: seq<real>, g: int -> real, r: LeastSq)
    requires |n| == |time|
  {
    if SumGG(n, g, |n|) == 0.0 then r.coef == None && r.rms == None
    else
      && |n| > 0 && r.coef == Some(BestCoef(n, time, g))
      && var mean := SumT(time, |n|) / |n| as real;
         r.rms == if mean == 0.0 then None
                  else Some(SignedSquare(Total(n, time, g, BestCoef(n, time, g)), |n|, mean))
  }

  method FitCurve(n: seq<int>, time: seq<real>, g: int -> real) returns (r: LeastSq)
    requires |n| == |time|
    ensures IsFit(n, time, g, r) && r.complexity == OLambda
  {
    var sigma_gn_squared, sigma_time, sigma_time_gn := 0.0, 0.0, 0.0;
    for i := 0 to |n|
      invariant sigma_gn_squared == SumGG(n, g, i)
      invariant sigma_time == SumT(time, i)
      invariant sigma_time_gn == SumTG(n, time, g, i)
    {
      var gn := g(n[i]);
      sigma_gn_squared := sigma_gn_squared + gn * gn;
      sigma_time := sigma_time + time[i];
      sigma_time_gn := sigma_time_gn + time[i] * gn;
    }
    if sigma_gn_squared == 0.0 {
      return LeastSq(None, None, OLambda);
    }
    var coef := sigma_time_gn / sigma_gn_squared;
    var rms := 0.0;
    for i := 0 to |n|
      invariant rms == Residual(n, time, g, coef, i)
    {
      var fit := coef * g(n[i]);
      rms := rms + (time[i] - fit) * (time[i] - fit);
    }
    var mean := sigma_time / |n| as real;
    r := LeastSq(Some(coef), if mean == 0.0 then None else Some(SignedSquare(rms, |n|, mean)), OLambda);
  }

  // ----- Choosing the curve -----

  predicate Less(a: Option<real>, b: Option<real>) {
    a.Some? && b.Some? && a.value < b.value
  }

  /** The automatic mode's curves, the default first. */
  const CURVES: seq<BigO> := [O1, OLogN, ON, ONLogN, ONSquared, ONCubed]

  /** None where a CHECK fails. */
  method MinimalLeastSq(n: seq<int>, time: seq<real>, complexity: BigO, lg: int -> real) returns (r: Option<LeastSq>)
    ensures r == None <==> |n| != |time| || |n| < 2 || complexity == ONone
    ensures r != None && complexity != OAuto ==>
      IsFit(n, time, FittingCurve(complexity, lg), r.value) && r.value.complexity == complexity
    ensures r != None && complexity == OAuto ==> Chosen(n, time, lg, |CURVES|, r.value)
  {
    if |n| != |time| || |n| < 2 || complexity == ONone { return None; }
    if complexity != OAuto {
      var fit := FitCurve(n, time, FittingCurve(complexity, lg));
      return Some(fit.(complexity := complexity));
    }
    var best := FitCurve(n, time, FittingCurve(O1, lg));
    best := best.(complexity := O1);
    assert ChosenAt(n, time, lg, 1, best, 0);
    for j := 1 to |CURVES|
      invariant Chosen(n, time, lg, j, best)
    {
      var fit := FitCurve(n, time, FittingCurve(CURVES[j], lg));
      Contest(n, time, lg, j, best, fit.(complexity := CURVES[j]));
      if Less(fit.rms, best.rms) {
        best := fit.(complexity := CURVES[j]);
      }
    }
    r := Some(best);
  }

  /** The rms of a fitted curve. */
  ghost function RmsOf(n: seq<int>, time: seq<real>, g: int -> real): Option<real>
    requires |n| == |time| && |n| > 0
  {
    var mean := SumT(time, |n|) / |n| as real;
    if SumGG(n, g, |n|) == 0.0 || mean == 0.0 then None
    else Some(SignedSquare(Total(n, time, g, BestCoef(n, time, g)), |n|, mean))
  }

  ghost function CurveRms(n: seq<int>, time: seq<real>, lg: int -> real, j: nat): Option<real>
    requires |n| == |time| && |n| > 0 && j < |CURVES|
  {
    RmsOf(n, time, FittingCurve(CURVES[j], lg))
  }

  /** r is the fit of the first of the leading `count` curves with the least rms. */
  ghost predicate Chosen(n: seq<int>, time: seq<real>, lg: int -> real, count: nat, r: LeastSq)
    requires |n| == |time| && |n| > 0 && count <= |CURVES|
  {
    exists k: nat :: k < count && ChosenAt(n, time, lg, count, r, k)
  }

  /** An earlier curve's rms is not a number or is strictly larger. */
  predicate Beaten(earlier: Option<real>, rms: Option<real>) {
    rms.Some? && earlier != rms && !Less(earlier, rms)
  }

  ghost predicate ChosenAt(n: seq<int>, time: seq<real>, lg: int -> real, count: nat, r: LeastSq, k: nat)
    requires |n| == |time| && |n| > 0 && k < count <= |CURVES|
  {
    && r.complexity == CURVES[k]
    && IsFit(n, time, FittingCurve(CURVES[k], lg), r)
    && r.rms == CurveRms(n, time, lg, k)
    && (forall j: nat {:trigger CurveRms(n, time, lg, j)} :: j < count ==> !Less(CurveRms(n, time, lg, j), r.rms))
    && (forall j: nat :: j < k ==> Beaten(CurveRms(n, time, lg, j), r.rms))
  }

  /** One more curve: it replaces the best so far exactly when it is strictly better. */
  lemma Contest(n: seq<int>, time: seq<real>, lg: int -> real, j: nat, best: LeastSq, fit: LeastSq)
    requires |n| == |time| && |n| > 0 && j < |CURVES| && Chosen(n, time, lg, j, best)
    requires IsFit(n, time, FittingCurve(CURVES[j], lg), fit) && fit.complexity == CURVES[j]
    ensures Chosen(n, time, lg, j + 1, if Less(fit.rms, best.rms) then fit else best)
  {
    var k: nat :| k < j && ChosenAt(n, time, lg, j, best, k);
    assert fit.rms == CurveRms(n, time, lg, j);
    if Less(fit.rms, best.rms) {
      assert ChosenAt(n, time, lg, j + 1, fit, j);
    } else {
      assert ChosenAt(n, time, lg, j + 1, best, k);
    }
  }

  // ----- What the automatic mode guarantees -----

  /** Times that lie exactly on c times the curve. */
  ghost predicate OnCurve(n: seq<int>, time: seq<real>, g: int -> real, c: real) {
    |n| == |time| && forall i :: 0 <= i < |n| ==> time[i] == Times(c, g(n[i]))
  }

  lemma {:induction false} NoResidual(n: seq<int>, time: seq<real>, g: int -> real, c: real, k: nat)
    requires OnCurve(n, time, g, c) && k <= |n|
    ensures Residual(n, time, g, c, k) == 0.0
  {
    if k > 0 { NoResidual(n, time, g, c, k - 1); }
  }

  /** Fitting the curve the times came from gives back its coefficient, with nothing left over. */
  lemma RecoversCoefficient(n: seq<int>, time: seq<real>, g: int -> real, c: real)
    requires OnCurve(n, time, g, c) && SumGG(n, g, |n|) != 0.0
    ensures BestCoef(n, time, g) == c && Total(n, time, g, c) == 0.0
  {
    NoResidual(n, time, g, c, |n|);
    CoefficientIsBest(n, time, g, c);
    TotalNonNegative(n, time, g, BestCoef(n, time, g), |n|);
  }

  lemma {:induction false} TotalNonNegative(n: seq<int>, time: seq<real>, g: int -> real, c: real, k: nat)
    requires k <= |n| == |time|
    ensures Residual(n, time, g, c, k) >= 0.0
  {
    if k > 0 { TotalNonNegative(n, time, g, c, k - 1); }
  }

  lemma {:induction false} ConstantCurve(n: seq<int>, lg: int -> real, k: nat)
    requires k <= |n|
    ensures SumGG(n, FittingCurve(O1, lg), k) == k as real
  {
    if k > 0 { ConstantCurve(n, lg, k - 1); }
  }

  lemma SignedSquareOrders(a: real, b: real, count: nat, mean: real)
    requires count > 0 && mean > 0.0
    ensures SignedSquare(a, count, mean) < SignedSquare(b, count, mean) <==> a < b
  {
    TimesPositive(mean, mean);
    DivideOrders(a, b, count as real);
    DivideOrders(a / count as real, b / count as real, Square(mean));
  }

  lemma DivideOrders(a: real, b: real, d: real)
    requires d > 0.0
    ensures a / d < b / d <==> a < b
  {
    var x, y := a / d, b / d;
    assert x * d == a && y * d == b;
    if x < y { TimesPositive(y - x, d); }
    if x > y { TimesPositive(x - y, d); }
  }

  /** A curve's own best residual is at most the residual of the zero coefficient. */
  lemma AtMostZeroFit(n: seq<int>, time: seq<real>, g: int -> real)
    requires |n| == |time| && SumGG(n, g, |n|) != 0.0
    ensures Total(n, time, g, BestCoef(n, time, g)) <= SumTT(time, |n|)
  {
    CoefficientIsBest(n, time, g, 0.0);
    Expand(n, time, g, 0.0, |n|);
  }

  /** With a positive mean time the automatic mode finds the best fit there is: no other curve with
      any coefficient has a smaller sum of squared residuals, and among equals the first curve in
      the order 1, lgN, N, NlgN, N^2, N^3 wins. */
  lemma AutoIsBest(n: seq<int>, time: seq<real>, lg: int -> real, r: LeastSq, k: nat, j: nat, c: real)
    requires |n| == |time| && |n| >= 2 && SumT(time, |n|) > 0.0 && j < |CURVES|
    requires k < |CURVES| && ChosenAt(n, time, lg, |CURVES|, r, k)
    ensures var g, h := FittingCurve(CURVES[k], lg), FittingCurve(CURVES[j], lg);
      && r.coef.Some?
      && Total(n, time, g, r.coef.value) <= Total(n, time, h, c)
      && (j < k ==> Total(n, time, g, r.coef.value) < Total(n, time, h, c))
    decreases j
  {
    var g, h := FittingCurve(CURVES[k], lg), FittingCurve(CURVES[j], lg);
    var mean := SumT(time, |n|) / |n| as real;
    assert mean > 0.0;
    ConstantCurve(n, lg, |n|);
    assert CurveRms(n, time, lg, 0).Some?;
    assert !Less(CurveRms(n, time, lg, 0), r.rms);
    assert r.rms.Some?;
    AtMostZeroFit(n, time, g);
    if SumGG(n, h, |n|) == 0.0 {
      ZeroCurve(n, time, h, c, |n|);
      if j < k {
        AutoIsBest(n, time, lg, r, k, 0, 0.0);
        Expand(n, time, FittingCurve(O1, lg), 0.0, |n|);
      }
    } else {
      CoefficientIsBest(n, time, h, c);
      SignedSquareOrders(Total(n, time, h, BestCoef(n, time, h)), Total(n, time, g, BestCoef(n, time, g)), |n|, mean);
      assert !Less(CurveRms(n, time, lg, j), r.rms);
    }
  }

  /** If the times lie exactly on one of the six curves, the automatic mode leaves no residual, and
      picks no later curve. */
  lemma AutoExplainsExactTimes(n: seq<int>, time: seq<real>, lg: int -> real, r: LeastSq, k: nat, j: nat, c: real)
    requires |n| == |time| && |n| >= 2 && SumT(time, |n|) > 0.0 && j < |CURVES|
    requires k < |CURVES| && ChosenAt(n, time, lg, |CURVES|, r, k)
    requires OnCurve(n, time, FittingCurve(CURVES[j], lg), c)
    ensures r.coef.Some? && Total(n, time, FittingCurve(CURVES[k], lg), r.coef.value) == 0.0
    ensures k <= j
  {
    AutoIsBest(n, time, lg, r, k, j, c);
    NoResidual(n, time, FittingCurve(CURVES[j], lg), c, |n|);
    TotalNonNegative(n, time, FittingCurve(CURVES[k], lg), r.coef.value, |n|);
  }

  lemma {:induction false} OnCurveUpTo(n: seq<int>, time: seq<real>, g: int -> real, c: real, k: nat)
    requires k <= |n| == |time| && Residual(n, time, g, c, k) == 0.0
    ensures forall i :: 0 <= i < k ==> time[i] == Times(c, g(n[i]))
  {
    if k > 0 {
      TotalNonNegative(n, time, g, c, k - 1);
      var d := time[k - 1] - Times(c, g(n[k - 1]));
      if d != 0.0 { TimesPositive(d, d); }
      OnCurveUpTo(n, time, g, c, k - 1);
    }
  }

  /** Times that lie exactly on some of the six curves are attributed to the first of these, with
      its coefficient: to the curve they came from exactly if no earlier one carries them too. */
  lemma AutoPicksFirstExact(n: seq<int>, time: seq<real>, lg: int -> real, r: LeastSq, k: nat, j: nat, c: real)
    requires |n| == |time| && |n| >= 2 && SumT(time, |n|) > 0.0 && j < |CURVES|
    requires k < |CURVES| && ChosenAt(n, time, lg, |CURVES|, r, k)
    requires OnCurve(n, time, FittingCurve(CURVES[j], lg), c)
    ensures r.coef.Some? && OnCurve(n, time, FittingCurve(CURVES[k], lg), r.coef.value)
    ensures forall i: nat, d: real :: i < k ==> !OnCurve(n, time, FittingCurve(CURVES[i], lg), d)
    ensures k == j <==> forall i: nat, d: real :: i < j ==> !OnCurve(n, time, FittingCurve(CURVES[i], lg), d)
  {
    AutoExplainsExactTimes(n, time, lg, r, k, j, c);
    OnCurveUpTo(n, time, FittingCurve(CURVES[k], lg), r.coef.value, |n|);
    forall i: nat, d: real | i < k ensures !OnCurve(n, time, FittingCurve(CURVES[i], lg), d) {
      if OnCurve(n, time, FittingCurve(CURVES[i], lg), d) {
        AutoExplainsExactTimes(n, time, lg, r, k, i, d);
      }
    }
    if k < j {
      assert OnCurve(n, time, FittingCurve(CURVES[k], lg), r.coef.value);
    }
  }

  /** So the automatic mode can name the wrong growth: 2 and 4 are twice their logarithms 1 and 2, and
      times that are linear at these two sizes are reported as lgN with coefficient 2. */
  lemma LinearLooksLogarithmic(lg: int -> real, r: LeastSq, k: nat)
    requires lg(2) == 1.0 && lg(4) == 2.0
    requires k < |CURVES| && ChosenAt([2, 4], [2.0, 4.0], lg, |CURVES|, r, k)
    ensures OnCurve([2, 4], [2.0, 4.0], FittingCurve(ON, lg), 1.0)
    ensures r.complexity == OLogN && r.coef == Some(2.0)
  {
    var n, time := [2, 4], [2.0, 4.0];
    assert SumT(time, 2) == 6.0 by { assert SumT(time, 1) == 2.0; }
    assert OnCurve(n, time, FittingCurve(CURVES[1], lg), 2.0);
    AutoPicksFirstExact(n, time, lg, r, k, 1, 2.0);
    AutoExplainsExactTimes(n, time, lg, r, k, 1, 2.0);
    var c := r.coef.value;
    assert time[0] == Times(c, FittingCurve(CURVES[k], lg)(n[0]));
    assert time[1] == Times(c, FittingCurve(CURVES[k], lg)(n[1]));
  }

  // ----- The curves by their values -----

  /** A fit of times on c times the curve: coefficient c, no residual. */
  ghost predicate FitsExactly(time: seq<real>, c: real, r: LeastSq) {
    r.coef == Some(c) && r.rms == if SumT(time, |time|) == 0.0 then None else Some(0.0)
  }

  lemma ExactFit(n: seq<int>, time: seq<real>, g: int -> real, c: real, r: LeastSq)
    requires OnCurve(n, time, g, c) && IsFit(n, time, g, r) && |n| > 0
    requires exists i :: 0 <= i < |n| && g(n[i]) != 0.0
    ensures FitsExactly(time, c, r)
  {
    NonZeroSum(n, g, |n|);
    RecoversCoefficient(n, time, g, c);
    var mean := SumT(time, |n|) / |n| as real;
    MeanZero(SumT(time, |n|), |n|);
    if mean != 0.0 { NoRms(|n|, mean); }
  }

  lemma NoRms(count: nat, mean: real)
    requires count > 0 && mean != 0.0
    ensures SignedSquare(0.0, count, mean) == 0.0
  {
    TimesPositive(mean, mean);
    ZeroOver(count as real);
    ZeroOver(if mean > 0.0 then Square(mean) else -Square(mean));
  }

  lemma ZeroOver(d: real)
    requires d != 0.0
    ensures 0.0 / d == 0.0
  {
  }

  lemma MeanZero(sum: real, count: nat)
    requires count > 0
    ensures sum / count as real == 0.0 <==> sum == 0.0
  {
    assert (sum / count as real) * count as real == sum;
  }

  lemma {:induction false} NonZeroSum(n: seq<int>, g: int -> real, k: nat)
    requires k <= |n|
    ensures SumGG(n, g, k) >= 0.0
    ensures (exists i :: 0 <= i < k && g(n[i]) != 0.0) ==> SumGG(n, g, k) > 0.0
  {
    if k > 0 {
      NonZeroSum(n, g, k - 1);
      if g(n[k - 1]) != 0.0 { TimesPositive(g(n[k - 1]), g(n[k - 1])); }
    }
  }

  /** Constant times. */
  lemma FitsConstant(n: seq<int>, time: seq<real>, lg: int -> real, c: real, r: LeastSq)
    requires |n| == |time| && |n| > 0 && IsFit(n, time, FittingCurve(O1, lg), r)
    requires forall i :: 0 <= i < |n| ==> time[i] == c
    ensures FitsExactly(time, c, r)
  {
    assert FittingCurve(O1, lg)(n[0]) == 1.0;
    ExactFit(n, time, FittingCurve(O1, lg), c, r);
  }

  /** Times proportional to log2 n, to n, to n log2 n, to n^2 and to n^3, unless the curve is zero at
      every size. */
  lemma FitsLogarithm(n: seq<int>, time: seq<real>, lg: int -> real, c: real, r: LeastSq)
    requires |n| == |time| && |n| > 0 && IsFit(n, time, FittingCurve(OLogN, lg), r)
    requires forall i :: 0 <= i < |n| ==> time[i] == Times(c, lg(n[i]))
    requires exists i :: 0 <= i < |n| && lg(n[i]) != 0.0
    ensures FitsExactly(time, c, r)
  {
    ExactFit(n, time, FittingCurve(OLogN, lg), c, r);
  }

  lemma FitsLine(n: seq<int>, time: seq<real>, lg: int -> real, c: real, r: LeastSq)
    requires |n| == |time| && |n| > 0 && IsFit(n, time, FittingCurve(ON, lg), r)
    requires forall i :: 0 <= i < |n| ==> time[i] == Times(c, n[i] as real)
    requires exists i :: 0 <= i < |n| && n[i] != 0
    ensures FitsExactly(time, c, r)
  {
    var i :| 0 <= i < |n| && n[i] != 0;
    assert FittingCurve(ON, lg)(n[i]) != 0.0;
    ExactFit(n, time, FittingCurve(ON, lg), c, r);
  }

  lemma FitsLineLogarithm(n: seq<int>, time: seq<real>, lg: int -> real, c: real, r: LeastSq)
    requires |n| == |time| && |n| > 0 && IsFit(n, time, FittingCurve(ONLogN, lg), r)
    requires forall i :: 0 <= i < |n| ==> time[i] == Times(c, n[i] as real * lg(n[i]))
    requires exists i :: 0 <= i < |n| && n[i] as real * lg(n[i]) != 0.0
    ensures FitsExactly(time, c, r)
  {
    var i :| 0 <= i < |n| && n[i] as real * lg(n[i]) != 0.0;
    assert FittingCurve(ONLogN, lg)(n[i]) != 0.0;
    ExactFit(n, time, FittingCurve(ONLogN, lg), c, r);
  }

  lemma FitsSquare(n: seq<int>, time: seq<real>, lg: int -> real, c: real, r: LeastSq)
    requires |n| == |time| && |n| > 0 && IsFit(n, time, FittingCurve(ONSquared, lg), r)
    requires forall i :: 0 <= i < |n| ==> time[i] == Times(c, (n[i] * n[i]) as real)
    requires exists i :: 0 <= i < |n| && n[i] != 0
    ensures FitsExactly(time, c, r)
  {
    forall i | 0 <= i < |n| ensures FittingCurve(ONSquared, lg)(n[i]) == (n[i] * n[i]) as real {
      Powers(n[i]);
    }
    var i :| 0 <= i < |n| && n[i] != 0;
    Powers(n[i]);
    assert FittingCurve(ONSquared, lg)(n[i]) != 0.0;
    ExactFit(n, time, FittingCurve(ONSquared, lg), c, r);
  }

  lemma FitsCube(n: seq<int>, time: seq<real>, lg: int -> real, c: real, r: LeastSq)
    requires |n| == |time| && |n| > 0 && IsFit(n, time, FittingCurve(ONCubed, lg), r)
    requires forall i :: 0 <= i < |n| ==> time[i] == Times(c, (n[i] * n[i] * n[i]) as real)
    requires exists i :: 0 <= i < |n| && n[i] != 0
    ensures FitsExactly(time, c, r)
  {
    forall i | 0 <= i < |n| ensures FittingCurve(ONCubed, lg)(n[i]) == (n[i] * n[i] * n[i]) as real {
      Powers(n[i]);
    }
    var i :| 0 <= i < |n| && n[i] != 0;
    Powers(n[i]);
    assert FittingCurve(ONCubed, lg)(n[i]) != 0.0;
    ExactFit(n, time, FittingCurve(ONCubed, lg), c, r);
  }

  lemma Powers(n: int)
    ensures (n * n) as real == n as real * n as real
    ensures (n * n * n) as real == n as real * n as real * n as real
    ensures n != 0 ==> (n * n) as real != 0.0 && (n * n * n) as real != 0.0
  {
    if n > 0 {
      assert n * n > 0;
      assert n * n * n > 0;
    } else if n < 0 {
      assert n * n > 0;
      assert n * n * n < 0;
    }
  }

  /** Times at the sizes 1, 2, 4 that are 1, lgN, N, NlgN, N^2 and N^3 there. */
  function TimesLike(j: nat): seq<real>
    requires j < 6
  {
    if j == 0 then [1.0, 1.0, 1.0]
    else if j == 1 then [0.0, 1.0, 2.0]
    else if j == 2 then [1.0, 2.0, 4.0]
    else if j == 3 then [0.0, 2.0, 8.0]
    else if j == 4 then [1.0, 4.0, 16.0]
    else [1.0, 8.0, 64.0]
  }

  predicate LogAt(lg: int -> real) {
    lg(1) == 0.0 && lg(2) == 1.0 && lg(4) == 2.0
  }

  lemma CurveAt(lg: int -> real, j: nat)
    requires LogAt(lg) && j < 6
    ensures var g := FittingCurve(CURVES[j], lg); [g(1), g(2), g(4)] == TimesLike(j)
  {
  }

  lemma OnCurveAt(lg: int -> real, i: nat, j: nat, d: real)
    requires LogAt(lg) && i < 6 && j < 6
    ensures OnCurve([1, 2, 4], TimesLike(j), FittingCurve(CURVES[i], lg), d) <==>
      && TimesLike(j)[0] == Times(d, TimesLike(i)[0])
      && TimesLike(j)[1] == Times(d, TimesLike(i)[1])
      && TimesLike(j)[2] == Times(d, TimesLike(i)[2])
  {
    CurveAt(lg, i);
    var g, n := FittingCurve(CURVES[i], lg), [1, 2, 4];
    assert [g(n[0]), g(n[1]), g(n[2])][0] == TimesLike(i)[0];
    assert [g(n[0]), g(n[1]), g(n[2])][1] == TimesLike(i)[1];
    assert [g(n[0]), g(n[1]), g(n[2])][2] == TimesLike(i)[2];
  }

  lemma OnlyOwn(lg: int -> real, i: nat, j: nat, d: real)
    requires LogAt(lg) && i < j < 6
    ensures !OnCurve([1, 2, 4], TimesLike(j), FittingCurve(CURVES[i], lg), d)
  {
    OnCurveAt(lg, i, j, d);
  }

  /** Each of the six names is given to times of its own curve at the sizes 1, 2 and 4. */
  lemma AutoNamesEach(lg: int -> real, r: LeastSq, j: nat)
    requires LogAt(lg) && j < 6 && Chosen([1, 2, 4], TimesLike(j), lg, |CURVES|, r)
    ensures r.complexity == [O1, OLogN, ON, ONLogN, ONSquared, ONCubed][j] && r.coef == Some(1.0)
  {
    var n, time, g := [1, 2, 4], TimesLike(j), FittingCurve(CURVES[j], lg);
    var k: nat :| k < |CURVES| && ChosenAt(n, time, lg, |CURVES|, r, k);
    OnCurveAt(lg, j, j, 1.0);
    assert SumT(time, 3) == time[0] + time[1] + time[2] by { assert SumT(time, 1) == time[0]; }
    forall i: nat, d: real | i < j ensures !OnCurve(n, time, FittingCurve(CURVES[i], lg), d) {
      OnlyOwn(lg, i, j, d);
    }
    AutoPicksFirstExact(n, time, lg, r, k, j, 1.0);
    OnCurveAt(lg, j, j, r.coef.value);
  }

  /** The normalised residual by its value: times 1 and 3 at a constant, mean 2, root mean square 1. */
  lemma RmsOfOneAndThree(n: seq<int>, lg: int -> real, r: LeastSq)
    requires |n| == 2 && IsFit(n, [1.0, 3.0], FittingCurve(O1, lg), r)
    ensures r.coef == Some(2.0) && r.rms == Some(0.25)
  {
    var time, g := [1.0, 3.0], FittingCurve(O1, lg);
    assert SumGG(n, g, 1) == 1.0 && SumGG(n, g, 2) == 2.0;
    assert SumTG(n, time, g, 1) == 1.0 && SumTG(n, time, g, 2) == 4.0;
    assert SumT(time, 1) == 1.0 && SumT(time, 2) == 4.0;
    assert Residual(n, time, g, 2.0, 1) == 1.0 && Residual(n, time, g, 2.0, 2) == 2.0;
  }
}
