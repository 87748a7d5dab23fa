/** The trial loop of `RunBenchmark` (benchmark/src/benchmark.cc): how often a benchmark is retried
    with more iterations before a run is reported.  Doubles are reals. */
module TrialLoop {

  const MAX_ITERATIONS: nat := 1000000000

  /** `explicit` is the requested iteration count, 0 for none; `min_time` the one in force. */
  datatype Config = Config(
    min_time: real,
    explicit: nat,
    repeats: nat,
    threads: nat,
    use_manual_time: bool,
    use_real_time: bool)

  /** The shared results of one trial, summed over the threads. */
  datatype Measured = Measured(real_time: real, cpu_time: real, manual_time: real, has_error: bool)

  predicate Sensible(c: Config) {
    c.threads >= 1
  }

  predicate NonNegative(m: Measured) {
    m.real_time >= 0.0 && m.cpu_time >= 0.0 && m.manual_time >= 0.0
  }

  function RealTime(c: Config, m: Measured): real
    requires Sensible(c)
  {
    m.real_time / c.threads as real
  }

  function Seconds(c: Config, m: Measured): real
    requires Sensible(c)
  {
    if c.use_manual_time then m.manual_time / c.threads as real
    else if c.use_real_time then RealTime(c, m)
    else m.cpu_time
  }

  function ShouldReport(c: Config, repetition: nat, iters: nat, m: Measured): bool
    requires Sensible(c)
  {
    || repetition > 0
    || c.explicit != 0
    || m.has_error
    || iters >= MAX_ITERATIONS
    || Seconds(c, m) >= c.min_time
    || (RealTime(c, m) >= 5.0 * c.min_time && !c.use_manual_time)
  }

  function Max(a: real, b: real): real {
    if a >= b then a else b
  }

  function Min(a: real, b: real): real {
    if a <= b then a else b
  }

  const NANOSECOND: real := 0.000000001

  function Multiplier(min_time: real, seconds: real): real
    requires min_time != 0.0
  {
    var m := min_time * 1.4 / Max(seconds, NANOSECOND);
    var capped := if seconds / min_time > 0.1 then m else Min(10.0, m);
    if capped <= 1.0 then 2.0 else capped
  }

  /** The iteration count of the next trial, rounded to the nearest integer. */
  function NextIters(min_time: real, seconds: real, iters: nat): int
    requires min_time != 0.0
  {
    Rounded(Multiplier(min_time, seconds), iters)
  }

  /** The clamp and the rounding, for a multiplier m. */
  function Rounded(m: real, iters: nat): int {
    var next := Max(m * iters as real, iters as real + 1.0);
    (Min(next, MAX_ITERATIONS as real) + 0.5).Floor
  }

  lemma QuotientAbove(x: real, y: real, q: real)
    requires y > 0.0 && x / y > q
    ensures x > q * y
  {
    assert x == (x / y) * y;
  }

  /** Minimum times of at least 1 ns, and those so short that the multiplier falls to 1 and is reset. */
  predicate GrowsFast(min_time: real) {
    min_time >= NANOSECOND || min_time * 1.4 <= NANOSECOND
  }

  /** For an unreported trial the multiplier is above 1 and at most 14, and it is at least 1.4 exactly
      outside the narrow band of minimum times between 1/1.4 ns and 1 ns, whatever was measured. */
  lemma MultiplierBounds(min_time: real, seconds: real)
    requires seconds < min_time && 0.0 < min_time
    ensures 1.0 < Multiplier(min_time, seconds) <= 14.0
    ensures Multiplier(min_time, seconds) >= 1.4 <==> GrowsFast(min_time)
  {
    var d := Max(seconds, NANOSECOND);
    if seconds / min_time > 0.1 {
      QuotientAbove(seconds, min_time, 0.1);
      QuotientBounds(min_time * 1.4, d, 0.0, 14.0);
    }
    if min_time >= NANOSECOND {
      QuotientBounds(min_time * 1.4, d, 1.4, min_time * 1.4 / d);
    } else {
      BelowOneNanosecond(min_time);
    }
  }

  /** Below 1 ns the quotient does not depend on the measured time. */
  lemma BelowOneNanosecond(min_time: real)
    requires 0.0 < min_time < NANOSECOND
    ensures 0.0 < min_time * 1.4 / NANOSECOND < 1.4
    ensures min_time * 1.4 / NANOSECOND <= 1.0 <==> min_time * 1.4 <= NANOSECOND
  {
    assert (min_time * 1.4 / NANOSECOND) * NANOSECOND == min_time * 1.4;
  }

  lemma QuotientBounds(x: real, d: real, lo: real, hi: real)
    requires d > 0.0
    ensures lo * d <= x ==> lo <= x / d
    ensures x <= hi * d ==> x / d <= hi
  {
    var q := x / d;
    assert q * d == x;
    if q < lo { Scale(lo - q, d); }
    if q > hi { Scale(q - hi, d); }
  }

  lemma Scale(x: real, d: real)
    requires x > 0.0 && d > 0.0
    ensures x * d > 0.0
  {
  }

  lemma ScaleBounds(m: real, i: real, x: real)
    requires x == m * i && i >= 0.0
    ensures m <= 14.0 ==> x <= 14.0 * i
    ensures m >= 1.4 ==> x >= 1.4 * i
  {
    if m < 14.0 && i > 0.0 { Scale(14.0 - m, i); }
    if m > 1.4 && i > 0.0 { Scale(m - 1.4, i); }
  }

  /** An unreported trial is followed by one with strictly more iterations, at most 14 times as many
      and never more than 10^9; outside the slow band, at least 5/4 times as many. */
  lemma NextTrial(min_time: real, seconds: real, iters: nat)
    requires seconds < min_time && 0.0 < min_time && 1 <= iters < MAX_ITERATIONS
    ensures iters < NextIters(min_time, seconds, iters) <= 14 * iters
    ensures NextIters(min_time, seconds, iters) <= MAX_ITERATIONS
    ensures GrowsFast(min_time) ==>
      NextIters(min_time, seconds, iters) == MAX_ITERATIONS || 4 * NextIters(min_time, seconds, iters) >= 5 * iters
  {
    MultiplierBounds(min_time, seconds);
    var x := Multiplier(min_time, seconds) * iters as real;
    ScaleBounds(Multiplier(min_time, seconds), iters as real, x);
    Rounding(x, iters, NextIters(min_time, seconds, iters));
  }

  /** The clamp and the rounding, for a wanted count x. */
  lemma Rounding(x: real, iters: nat, r: int)
    requires 1 <= iters < MAX_ITERATIONS && x <= 14.0 * iters as real
    requires r == (Min(Max(x, iters as real + 1.0), MAX_ITERATIONS as real) + 0.5).Floor
    ensures iters < r <= 14 * iters && r <= MAX_ITERATIONS
    ensures x >= 1.4 * iters as real ==> r == MAX_ITERATIONS || 4 * r >= 5 * iters
  {
    var next := Max(x, iters as real + 1.0);
    var y := Min(next, MAX_ITERATIONS as real);
    assert (14 * iters) as real == 14.0 * iters as real;
    assert (iters + 1) as real == iters as real + 1.0 <= MAX_ITERATIONS as real;
    Nearest(y, iters + 1, 14 * iters);
    Nearest(y, iters + 1, MAX_ITERATIONS);
    if x >= 1.4 * iters as real {
      if next >= MAX_ITERATIONS as real {
        Nearest(y, MAX_ITERATIONS, MAX_ITERATIONS);
      } else {
        assert r as real > 1.4 * iters as real - 0.5;
        assert (4 * r) as real == 4.0 * r as real && (5 * iters) as real == 5.0 * iters as real;
      }
    }
  }

  /** Rounding to the nearest integer stays between integer bounds. */
  lemma Nearest(y: real, a: int, b: int)
    requires a as real <= y <= b as real
    ensures a <= (y + 0.5).Floor <= b
  {
  }

  function Growth(k: nat): real {
    if k == 0 then 1.0 else 1.25 * Growth(k - 1)
  }

  lemma {:induction false} GrowthAdds(j: nat, k: nat)
    ensures Growth(j + k) == Growth(j) * Growth(k)
  {
    if j > 0 {
      GrowthAdds(j - 1, k);
      assert Growth(j + k) == 1.25 * Growth(j + k - 1);
    }
  }

  lemma {:induction false} GrowthMonotone(j: nat, k: nat)
    requires j <= k
    ensures 1.0 <= Growth(j) <= Growth(k)
  {
    if k > 0 {
      if j < k { GrowthMonotone(j, k - 1); } else { GrowthMonotone(j - 1, k - 1); }
    }
  }

  lemma GrowthOf93()
    ensures Growth(93) > MAX_ITERATIONS as real
  {
    assert Growth(3) == 1.953125;
    assert Growth(5) == 3.0517578125 by { GrowthAdds(3, 2); assert Growth(2) == 1.5625; }
    GrowthAdds(5, 5);
    assert Growth(10) > 9.313;
    GrowthAdds(10, 10);
    assert Growth(20) > 86.7;
    GrowthAdds(10, 20);
    assert Growth(30) > 807.0;
    GrowthAdds(30, 30);
    assert Growth(60) > 651000.0;
    GrowthAdds(30, 60);
    assert Growth(90) > 525000000.0;
    GrowthAdds(3, 90);
  }

  // ----- The trials of a benchmark -----

  function Start(c: Config): nat {
    if c.explicit != 0 then c.explicit else 1
  }

  /** In the first repetition a trial of i iterations is not reported. */
  predicate Retried(c: Config, measure: (nat, nat) -> Measured, i: nat)
    requires Sensible(c)
  {
    !ShouldReport(c, 0, i, measure(0, i))
  }

  ghost predicate AllNonNegative(measure: (nat, nat) -> Measured) {
    forall r, i :: NonNegative(measure(r, i))
  }

  /** A positive minimum time, or no negative measurement: then only a positive time is left to reach. */
  ghost predicate Comparable(c: Config, measure: (nat, nat) -> Measured) {
    c.min_time > 0.0 || AllNonNegative(measure)
  }

  /** A trial of i iterations is retried with j. */
  ghost predicate Step(c: Config, measure: (nat, nat) -> Measured, i: nat, j: nat)
    requires Sensible(c) && Comparable(c, measure)
  {
    var m := measure(0, i);
    Retried(c, measure, i) && c.min_time > 0.0 && j == NextIters(c.min_time, Seconds(c, m), i)
  }

  /** `path` lists the iteration counts of the first repetition's trials. */
  ghost predicate TrialPath(c: Config, measure: (nat, nat) -> Measured, path: seq<nat>)
    requires Sensible(c) && Comparable(c, measure)
  {
    && path != [] && path[0] == Start(c)
    && forall k {:trigger path[k]} :: 0 < k < |path| ==> Step(c, measure, path[k - 1], path[k])
  }

  lemma StepAt(c: Config, measure: (nat, nat) -> Measured, path: seq<nat>, k: nat)
    requires Sensible(c) && Comparable(c, measure) && TrialPath(c, measure, path) && k + 1 < |path|
    ensures Step(c, measure, path[k], path[k + 1])
  {
    assert path[k + 1] >= 0;
  }

  lemma PathExtends(c: Config, measure: (nat, nat) -> Measured, path: seq<nat>, next: nat)
    requires Sensible(c) && Comparable(c, measure) && TrialPath(c, measure, path)
    requires Step(c, measure, path[|path| - 1], next)
    ensures TrialPath(c, measure, path + [next])
  {
    var longer := path + [next];
    forall k | 0 < k < |longer| ensures Step(c, measure, longer[k - 1], longer[k]) {
      if k < |path| {
        assert longer[k] == path[k] && longer[k - 1] == path[k - 1];
      } else {
        assert longer[k] == next && longer[k - 1] == path[|path| - 1];
      }
    }
  }

  lemma {:induction false} PathAt(c: Config, measure: (nat, nat) -> Measured, path: seq<nat>, k: nat)
    requires Sensible(c) && Comparable(c, measure) && TrialPath(c, measure, path) && k < |path|
    ensures path[k] >= 1
    ensures k > 0 ==> path[k - 1] < path[k] <= 14 * path[k - 1] && path[k] <= MAX_ITERATIONS
    ensures k > 0 && GrowsFast(c.min_time) ==> path[k] == MAX_ITERATIONS || 4 * path[k] >= 5 * path[k - 1]
  {
    if k > 0 {
      PathAt(c, measure, path, k - 1);
      StepAt(c, measure, path, k - 1);
      TooShort(c, measure, path[k - 1]);
      NextTrial(c.min_time, Seconds(c, measure(0, path[k - 1])), path[k - 1]);
    }
  }

  lemma {:induction false} PathGrows(c: Config, measure: (nat, nat) -> Measured, path: seq<nat>, k: nat)
    requires Sensible(c) && Comparable(c, measure) && TrialPath(c, measure, path)
    requires GrowsFast(c.min_time) && k + 1 < |path|
    ensures Growth(k) <= path[k] as real < MAX_ITERATIONS as real
  {
    RetriedBelowMax(c, measure, path, k);
    PathAt(c, measure, path, k);
    if k > 0 {
      PathGrows(c, measure, path, k - 1);
      GrowsBy(Growth(k - 1), path[k - 1], path[k]);
    }
  }

  lemma RetriedBelowMax(c: Config, measure: (nat, nat) -> Measured, path: seq<nat>, k: nat)
    requires Sensible(c) && Comparable(c, measure) && TrialPath(c, measure, path) && k + 1 < |path|
    ensures path[k] < MAX_ITERATIONS
  {
    StepAt(c, measure, path, k);
  }

  lemma GrowsBy(g: real, i: nat, j: nat)
    requires g <= i as real && 4 * j >= 5 * i
    ensures 1.25 * g <= j as real
  {
    assert (4 * j) as real == 4.0 * j as real && (5 * i) as real == 5.0 * i as real;
  }

  /** A trial that is not reported took less than the minimum time. */
  lemma TooShort(c: Config, measure: (nat, nat) -> Measured, i: nat)
    requires Sensible(c) && Comparable(c, measure) && Retried(c, measure, i)
    ensures 0.0 < c.min_time && Seconds(c, measure(0, i)) < c.min_time && i < MAX_ITERATIONS
  {
    var m := measure(0, i);
    if AllNonNegative(measure) {
      assert NonNegative(m);
      QuotientBounds(m.real_time, c.threads as real, 0.0, m.real_time);
      QuotientBounds(m.manual_time, c.threads as real, 0.0, m.manual_time);
    }
  }

  /** Outside the slow band at most 94 trials are made: a logarithm of 10^9. */
  lemma FewTrials(c: Config, measure: (nat, nat) -> Measured, path: seq<nat>)
    requires Sensible(c) && Comparable(c, measure) && TrialPath(c, measure, path)
    requires GrowsFast(c.min_time)
    ensures |path| <= 94
    ensures |path| >= 2 ==> Growth(|path| - 2) < MAX_ITERATIONS as real
  {
    if |path| >= 2 { PathGrows(c, measure, path, |path| - 2); }
    if |path| >= 95 {
      PathGrows(c, measure, path, 93);
      GrowthOf93();
    }
  }

  // ----- Trials by their measurements -----

  /** The time on the chosen clock falls short of the minimum: on the manual or the real clock per
      thread, on the CPU clock in all. */
  predicate FallsShort(c: Config, m: Measured) {
    if c.use_manual_time then m.manual_time < c.min_time * c.threads as real
    else if c.use_real_time then m.real_time < c.min_time * c.threads as real
    else m.cpu_time < c.min_time
  }

  /** Real time per thread is below five times the minimum. */
  predicate NotFarBeyond(c: Config, m: Measured) {
    m.real_time < 5.0 * c.min_time * c.threads as real
  }

  lemma Over(x: real, d: real, y: real)
    requires d > 0.0
    ensures x / d < y <==> x < y * d
  {
    var q := x / d;
    assert q * d == x;
    if q < y { Scale(y - q, d); }
    if q > y { Scale(q - y, d); }
  }

  /** A first-repetition trial is retried if and only if no count was requested, there was no error, the
      cap is not reached, the chosen clock falls short, and, unless the benchmark times itself, real
      time is not far beyond the minimum. */
  lemma RetriedExactly(c: Config, measure: (nat, nat) -> Measured, i: nat)
    requires Sensible(c)
    ensures Retried(c, measure, i) <==>
      && c.explicit == 0 && !measure(0, i).has_error && i < 1_000_000_000
      && FallsShort(c, measure(0, i)) && (c.use_manual_time || NotFarBeyond(c, measure(0, i)))
  {
    var m, d := measure(0, i), c.threads as real;
    Over(m.manual_time, d, c.min_time);
    Over(m.real_time, d, c.min_time);
    Over(m.real_time, d, 5.0 * c.min_time);
  }

  /** All trials of a first repetition: from the start to one that is reported. */
  ghost predicate Complete(c: Config, measure: (nat, nat) -> Measured, path: seq<nat>)
    requires Sensible(c) && Comparable(c, measure)
  {
    TrialPath(c, measure, path) && !Retried(c, measure, path[|path| - 1])
  }

  /** Which trials are followed by another. */
  lemma FollowedExactly(c: Config, measure: (nat, nat) -> Measured, path: seq<nat>, k: nat)
    requires Sensible(c) && Comparable(c, measure) && Complete(c, measure, path) && k < |path|
    ensures k + 1 < |path| <==>
      && c.explicit == 0 && !measure(0, path[k]).has_error && path[k] < 1_000_000_000
      && FallsShort(c, measure(0, path[k])) && (c.use_manual_time || NotFarBeyond(c, measure(0, path[k])))
  {
    RetriedExactly(c, measure, path[k]);
    if k + 1 < |path| { StepAt(c, measure, path, k); }
  }

  /** The next count by value, for d the measured time, at least 1 ns: doubled where 1.4 minimum times
      do not exceed d; tenfold where the trial took at most a tenth of the minimum time and fourteen
      tenths of it are ten d or more; otherwise the integer nearest to 1.4 minimum times over d of the
      count, but at least one more.  All up to 10^9. */
  lemma NextByValue(min_time: real, seconds: real, iters: nat, d: real)
    requires seconds < min_time && 0.0 < min_time && 1 <= iters < MAX_ITERATIONS
    requires d == if seconds >= NANOSECOND then seconds else NANOSECOND
    ensures IsNext(NextIters(min_time, seconds, iters), min_time * 1.4, 10.0 * seconds <= min_time, d, iters)
  {
    MultiplierByValue(min_time, seconds, d);
    NextFrom(Multiplier(min_time, seconds), min_time * 1.4, 10.0 * seconds <= min_time, d, iters);
  }

  /** For x, 1.4 minimum times, and whether the trial was short. */
  predicate IsNext(r: int, x: real, short: bool, d: real, iters: nat) {
    if x <= d then r == AtMost(2 * iters)
    else if short && x >= 10.0 * d then r == AtMost(10 * iters)
    else NearestTo(r, x * iters as real, d, iters)
  }

  lemma NextFrom(m: real, x: real, short: bool, d: real, iters: nat)
    requires d > 0.0 && 1 <= iters < MAX_ITERATIONS
    requires if x <= d then m == 2.0 else if short && x >= 10.0 * d then m == 10.0 else m * d == x
    ensures IsNext(Rounded(m, iters), x, short, d, iters)
  {
    if x <= d {
      WholeNext(m, 2, iters);
    } else if short && x >= 10.0 * d {
      WholeNext(m, 10, iters);
    } else {
      FractionNext(x, d, m, iters);
    }
  }

  lemma MultiplierByValue(min_time: real, seconds: real, d: real)
    requires seconds < min_time && 0.0 < min_time && d == if seconds >= NANOSECOND then seconds else NANOSECOND
    ensures var m := Multiplier(min_time, seconds);
      if min_time * 1.4 <= d then m == 2.0
      else if 10.0 * seconds <= min_time && min_time * 1.4 >= 10.0 * d then m == 10.0
      else m * d == min_time * 1.4
  {
    var q := min_time * 1.4 / d;
    Tenth(seconds, min_time);
    Quotient(min_time * 1.4, d, q);
    assert Max(seconds, NANOSECOND) == d;
  }

  lemma Quotient(x: real, d: real, q: real)
    requires d > 0.0 && q == x / d
    ensures q * d == x
    ensures q < 10.0 <==> x < 10.0 * d
    ensures q <= 1.0 <==> x <= d
  {
    Over(x, d, 10.0);
    OverAtMost(x, d, 1.0);
  }

  function AtMost(i: nat): nat {
    if i > 1_000_000_000 then 1_000_000_000 else i
  }

  /** r is the integer nearest to x / d, but at least iters + 1 and at most 10^9. */
  predicate NearestTo(r: int, x: real, d: real, iters: nat) {
    if x <= (iters + 1) as real * d then r == iters + 1
    else if x >= 1000000000.0 * d then r == 1_000_000_000
    else (r as real - 0.5) * d <= x < (r as real + 0.5) * d
  }

  lemma Tenth(seconds: real, min_time: real)
    requires 0.0 < min_time
    ensures seconds / min_time > 0.1 <==> 10.0 * seconds > min_time
  {
    assert (seconds / min_time) * min_time == seconds;
    OverAtMost(seconds, min_time, 0.1);
  }

  lemma OverAtMost(x: real, d: real, y: real)
    requires d > 0.0
    ensures x / d <= y <==> x <= y * d
  {
    var q := x / d;
    assert q * d == x;
    if q < y { Scale(y - q, d); }
    if q > y { Scale(q - y, d); }
  }

  lemma WholeNext(m: real, w: nat, iters: nat)
    requires w >= 2 && m == w as real && 1 <= iters < MAX_ITERATIONS
    ensures Rounded(m, iters) == AtMost(w * iters)
  {
    assert (w * iters) as real == m * iters as real;
    WholeAtLeast(w, iters);
    if w * iters > MAX_ITERATIONS {
      assert Rounded(m, iters) == (MAX_ITERATIONS as real + 0.5).Floor;
    } else {
      assert Rounded(m, iters) == ((w * iters) as real + 0.5).Floor;
    }
  }

  lemma WholeAtLeast(m: nat, iters: nat)
    requires m >= 2 && iters >= 1
    ensures m * iters >= iters + 1
  {
    assert (m - 2) * iters >= 0;
    assert m * iters == (m - 2) * iters + 2 * iters;
  }

  lemma FractionNext(x: real, d: real, m: real, iters: nat)
    requires d > 0.0 && m * d == x && 1 <= iters < MAX_ITERATIONS
    ensures NearestTo(Rounded(m, iters), x * iters as real, d, iters)
  {
    var y, r := m * iters as real, Rounded(m, iters);
    assert y * d == x * iters as real;
    assert (iters + 1) as real == iters as real + 1.0;
    ScaleOrders(y, iters as real + 1.0, d);
    ScaleOrders(y, 1000000000.0, d);
    ScaleOrders(y, r as real - 0.5, d);
    ScaleOrders(y, r as real + 0.5, d);
    if y <= iters as real + 1.0 {
      assert r == ((iters + 1) as real + 0.5).Floor;
    } else if y >= 1000000000.0 {
      assert r == (MAX_ITERATIONS as real + 0.5).Floor;
    }
  }

  lemma ScaleOrders(a: real, b: real, d: real)
    requires d > 0.0
    ensures a < b <==> a * d < b * d
  {
    if a < b { Scale(b - a, d); }
    if a > b { Scale(a - b, d); }
  }

  lemma {:induction false} PathsAgree(c: Config, measure: (nat, nat) -> Measured, p: seq<nat>, q: seq<nat>, k: nat)
    requires Sensible(c) && Comparable(c, measure) && TrialPath(c, measure, p) && TrialPath(c, measure, q)
    requires k < |p| && k < |q|
    ensures p[k] == q[k]
  {
    if k > 0 {
      PathsAgree(c, measure, p, q, k - 1);
      StepAt(c, measure, p, k - 1);
      StepAt(c, measure, q, k - 1);
    }
  }

  /** What is measured determines the trials. */
  lemma OneCompletePath(c: Config, measure: (nat, nat) -> Measured, p: seq<nat>, q: seq<nat>)
    requires Sensible(c) && Comparable(c, measure) && Complete(c, measure, p) && Complete(c, measure, q)
    ensures p == q
  {
    var k := if |p| <= |q| then |p| - 1 else |q| - 1;
    PathsAgree(c, measure, p, q, k);
    if |p| < |q| { StepAt(c, measure, q, k); }
    if |q| < |p| { StepAt(c, measure, p, k); }
    forall i | 0 <= i < |p| && i < |q| ensures p[i] == q[i] {
      PathsAgree(c, measure, p, q, i);
    }
  }

  /** Ten milliseconds an iteration on one thread, timed by the CPU clock, for half a second. */
  const TYPICAL := Config(0.5, 0, 1, 1, false, false)

  function TenMilliseconds(repetition: nat, iters: nat): Measured {
    Measured(0.01 * iters as real, 0.01 * iters as real, 0.0, false)
  }

  /** Such a benchmark is tried with 1, 10 and 70 iterations, and reports 70. */
  lemma TypicalTrials(path: seq<nat>)
    requires Complete(TYPICAL, TenMilliseconds, path)
    ensures path == [1, 10, 70]
  {
    var typical := [1, 10, 70];
    NextByValue(0.5, 0.01, 1, 0.01);
    NextByValue(0.5, 0.1, 10, 0.1);
    RetriedExactly(TYPICAL, TenMilliseconds, 1);
    RetriedExactly(TYPICAL, TenMilliseconds, 10);
    RetriedExactly(TYPICAL, TenMilliseconds, 70);
    assert NextIters(0.5, 0.1, 10) == 70;
    assert Step(TYPICAL, TenMilliseconds, 1, 10) && Step(TYPICAL, TenMilliseconds, 10, 70);
    assert Complete(TYPICAL, TenMilliseconds, typical);
    OneCompletePath(TYPICAL, TenMilliseconds, path, typical);
  }

  // ----- The slow band -----

  const SLOW := Config(0.000000000715, 0, 1, 1, false, false)

  function NothingMeasured(repetition: nat, iters: nat): Measured {
    Measured(0.0, 0.0, 0.0, false)
  }

  function OneByOne(count: nat): seq<nat> {
    seq(count, k => k + 1)
  }

  lemma SlowStep(i: nat)
    requires 1 <= i <= 1000
    ensures Comparable(SLOW, NothingMeasured) && Step(SLOW, NothingMeasured, i, i + 1)
  {
    assert SLOW.min_time * 1.4 / NANOSECOND == 1.001;
    assert Multiplier(SLOW.min_time, 0.0) == 1.001;
    assert 1.001 * i as real <= i as real + 1.0;
    assert (i as real + 1.0 + 0.5).Floor == i + 1;
  }

  /** In the slow band the bound of `FewTrials` fails: at 0.715 ns, with nothing measurable, the first
      1001 trials try 1, 2, 3, ... iterations. */
  lemma SlowBelowOneNanosecond()
    ensures !GrowsFast(SLOW.min_time) && Comparable(SLOW, NothingMeasured) && AllNonNegative(NothingMeasured)
    ensures TrialPath(SLOW, NothingMeasured, OneByOne(1001))
  {
    SlowStep(1);
    var path := OneByOne(1001);
    forall k | 0 < k < |path| ensures Step(SLOW, NothingMeasured, path[k - 1], path[k]) {
      SlowStep(k);
    }
  }

  /** An explicit count, an error, the cap, enough measured time, or a real time far beyond it on a
      benchmark that does not time itself: the first trial with any of these is the last one. */
  lemma StopsAtOnce(c: Config, measure: (nat, nat) -> Measured, path: seq<nat>, k: nat)
    requires Sensible(c) && Comparable(c, measure) && TrialPath(c, measure, path) && k < |path|
    requires
      || c.explicit != 0 || measure(0, path[k]).has_error || path[k] == MAX_ITERATIONS
      || Seconds(c, measure(0, path[k])) >= c.min_time
      || (!c.use_manual_time && RealTime(c, measure(0, path[k])) >= 5.0 * c.min_time)
    ensures k == |path| - 1
    ensures c.explicit != 0 ==> path == [c.explicit]
  {
    if k + 1 < |path| { StepAt(c, measure, path, k); }
    if c.explicit != 0 {
      NoSecondTrial(c, measure, path);
    }
  }

  lemma NoSecondTrial(c: Config, measure: (nat, nat) -> Measured, path: seq<nat>)
    requires Sensible(c) && Comparable(c, measure) && TrialPath(c, measure, path) && c.explicit != 0
    ensures |path| == 1
  {
    if |path| > 1 { StepAt(c, measure, path, 0); }
  }

  /** The trials of the first repetition follow `TrialPath` up to the first one that is reported, and
      every repetition reports the iteration count that one had. */
  method RunBenchmark(c: Config, measure: (nat, nat) -> Measured) returns (reports: seq<nat>, path: seq<nat>)
    requires Sensible(c) && Comparable(c, measure)
    ensures |reports| == c.repeats
    ensures if c.repeats == 0 then path == [] else Complete(c, measure, path)
    ensures forall r :: 0 <= r < |reports| ==> path != [] && reports[r] == path[|path| - 1]
  {
    reports, path := [], [];
    var iters := Start(c);
    for repetition := 0 to c.repeats
      invariant |reports| == repetition
      invariant repetition == 0 ==> path == [] && iters == Start(c)
      invariant repetition > 0 ==>
        TrialPath(c, measure, path) && path[|path| - 1] == iters && !Retried(c, measure, iters)
      invariant forall r :: 0 <= r < |reports| ==> path != [] && reports[r] == path[|path| - 1]
    {
      if repetition == 0 { path := [iters]; }
      while true
        invariant TrialPath(c, measure, path) && path[|path| - 1] == iters
        invariant repetition > 0 ==> !Retried(c, measure, iters)
        invariant repetition == 0 ==> reports == []
        invariant |reports| == repetition
        invariant forall r :: 0 <= r < |reports| ==> reports[r] == iters
        decreases MAX_ITERATIONS - iters
      {
        var m := measure(repetition, iters);
        if ShouldReport(c, repetition, iters, m) {
          reports := reports + [iters];
          break;
        }
        PathAt(c, measure, path, |path| - 1);
        TooShort(c, measure, iters);
        NextTrial(c.min_time, Seconds(c, m), iters);
        iters := NextIters(c.min_time, Seconds(c, m), iters);
        PathExtends(c, measure, path, iters);
        path := path + [iters];
      }
    }
  }
}
