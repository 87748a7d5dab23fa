/** Argument lists of a benchmark: `Benchmark::AddRange` and `Benchmark::Ranges`
    (benchmark/src/benchmark_register.cc). */
module Ranges {
  import opened Common

  const INT32_MAX: int := 0x7fff_ffff

  // ----- AddRange -----

  function Pow(mult: nat, k: nat): nat {
    if k == 0 then 1 else mult * Pow(mult, k - 1)
  }

  lemma {:induction false} PowGrows(mult: nat, j: nat, k: nat)
    requires mult >= 2 && j < k
    ensures 1 <= Pow(mult, j) < Pow(mult, k)
    decreases k
  {
    PowPositive(mult, k - 1);
    if j < k - 1 { PowGrows(mult, j, k - 1); }
    assert mult * Pow(mult, k - 1) >= 2 * Pow(mult, k - 1);
  }

  lemma {:induction false} PowPositive(mult: nat, k: nat)
    requires mult >= 2
    ensures Pow(mult, k) >= 1
  {
    if k > 0 { PowPositive(mult, k - 1); }
  }

  lemma MulMono(s: nat, a: int, b: int)
    requires a <= b
    ensures s * a <= s * b
  {
  }

  lemma MulSucc(s: int, v: int)
    ensures s * (v + 1) == s * v + s
  {
  }

  /** `kint32max / mult`: the loop stops before this. */
  function Limit(mult: int): int
    requires mult >= 2
  {
    INT32_MAX / mult
  }

  /** The limit is the last number whose product with mult fits in int32. */
  lemma LimitFits(mult: int)
    requires mult >= 2
    ensures mult * Limit(mult) <= INT32_MAX < mult * (Limit(mult) + 1)
  {
    assert INT32_MAX == mult * (INT32_MAX / mult) + INT32_MAX % mult;
    MulSucc(mult, Limit(mult));
  }

  /** The values the loop may append: strictly between lo and hi, and below the limit. */
  predicate Interior(lo: int, hi: int, limit: int, x: int) {
    lo < x < hi && x < limit
  }

  ghost predicate StrictlyIncreasing(s: seq<int>) {
    forall i, j :: 0 <= i < j < |s| ==> s[i] < s[j]
  }

  ghost predicate IsPower(x: int, mult: nat) {
    exists k :: x == Pow(mult, k)
  }

  /** lo, then exactly the interior powers of mult, then hi if different, in increasing order. */
  ghost predicate IsRange(s: seq<int>, lo: int, hi: int, mult: nat, limit: int) {
    && s != [] && s[0] == lo && s[|s| - 1] == hi
    && StrictlyIncreasing(s)
    && (forall x :: x in s ==> x == lo || x == hi || (Interior(lo, hi, limit, x) && IsPower(x, mult)))
    && (forall k: nat :: PowerCovered(s, lo, hi, mult, limit, k))
  }

  /** If mult^k is an interior value, the list has it. */
  ghost predicate PowerCovered(s: seq<int>, lo: int, hi: int, mult: nat, limit: int, k: nat) {
    Interior(lo, hi, limit, Pow(mult, k)) ==> Pow(mult, k) in s
  }

  /** A list of lo and interior powers below x. */
  ghost predicate Growing(s: seq<int>, lo: int, hi: int, mult: nat, limit: int, x: int) {
    && s != [] && s[0] == lo
    && StrictlyIncreasing(s)
    && (forall y :: y in s ==> y == lo || (Interior(lo, hi, limit, y) && IsPower(y, mult) && y < x))
  }

  /** The list while the loop is at x == mult^k. */
  ghost predicate Partial(s: seq<int>, lo: int, hi: int, mult: nat, limit: int, k: nat, x: int) {
    && x == Pow(mult, k)
    && Growing(s, lo, hi, mult, limit, x)
    && (forall j: nat :: j < k ==> PowerCovered(s, lo, hi, mult, limit, j))
  }

  lemma GrowingExtends(s: seq<int>, lo: int, hi: int, mult: nat, limit: int, x: int, x': int)
    requires Growing(s, lo, hi, mult, limit, x) && IsPower(x, mult) && x < hi && x < limit && x < x'
    ensures Growing(if x > lo then s + [x] else s, lo, hi, mult, limit, x')
  {
    var s' := if x > lo then s + [x] else s;
    assert forall i :: 0 <= i < |s| ==> s[i] in s;
    assert forall y :: y in s' ==> y in s || y == x;
  }

  lemma PartialExtends(s: seq<int>, lo: int, hi: int, mult: nat, limit: int, k: nat, x: int)
    requires mult >= 2 && Partial(s, lo, hi, mult, limit, k, x) && x < hi && x < limit
    ensures Partial(if x > lo then s + [x] else s, lo, hi, mult, limit, k + 1, mult * x)
  {
    var s' := if x > lo then s + [x] else s;
    PowGrows(mult, k, k + 1);
    assert IsPower(x, mult);
    GrowingExtends(s, lo, hi, mult, limit, x, mult * x);
    forall j: nat | j < k + 1 ensures PowerCovered(s', lo, hi, mult, limit, j) {
      if j < k { assert PowerCovered(s, lo, hi, mult, limit, j); }
    }
  }

  lemma FirstTwo(s: seq<int>)
    requires StrictlyIncreasing(s)
    ensures |s| <= 1 || s[0] < s[1]
  {
  }

  lemma GrowingEnds(s: seq<int>, lo: int, hi: int, mult: nat, limit: int, x: int)
    requires lo <= hi && Growing(s, lo, hi, mult, limit, x)
    ensures var s' := if hi != lo then s + [hi] else s;
      && s' != [] && s'[0] == lo && s'[|s'| - 1] == hi && StrictlyIncreasing(s')
      && forall y :: y in s' ==> y == lo || y == hi || (Interior(lo, hi, limit, y) && IsPower(y, mult))
  {
    assert forall i :: 0 <= i < |s| ==> s[i] in s;
    if hi == lo {
      assert forall i :: 0 <= i < |s| ==> s[i] == lo;
      FirstTwo(s);
    }
  }

  lemma PartialEnds(s: seq<int>, lo: int, hi: int, mult: nat, limit: int, k: nat, x: int)
    requires mult >= 2 && lo <= hi && Partial(s, lo, hi, mult, limit, k, x) && (x >= hi || x >= limit)
    ensures IsRange(if hi != lo then s + [hi] else s, lo, hi, mult, limit)
  {
    var s' := if hi != lo then s + [hi] else s;
    GrowingEnds(s, lo, hi, mult, limit, x);
    forall j: nat ensures PowerCovered(s', lo, hi, mult, limit, j) {
      if j < k {
        assert PowerCovered(s, lo, hi, mult, limit, j);
      } else if j > k {
        PowGrows(mult, k, j);
      }
    }
  }

  /** None where a CHECK fails; otherwise what `dst` has become.  i never exceeds int32. */
  method AddRange(dst: seq<int>, lo: int, hi: int, mult: int) returns (r: Option<seq<int>>)
    ensures r == None <==> lo < 0 || hi < lo || mult < 2
    ensures r != None ==> |dst| < |r.value| && r.value[..|dst|] == dst
                          && IsRange(r.value[|dst|..], lo, hi, mult, Limit(mult))
  {
    if lo < 0 || hi < lo || mult < 2 { return None; }
    var added := [lo];
    var i := 1;
    var limit := Limit(mult);
    ghost var k := 0;
    while i < limit
      invariant 1 <= i <= INT32_MAX
      invariant Partial(added, lo, hi, mult, limit, k, i)
      decreases INT32_MAX - i
    {
      if i >= hi { break; }
      PartialExtends(added, lo, hi, mult, limit, k, i);
      if i > lo {
        added := added + [i];
      }
      Fits(i, mult);
      i := mult * i;
      k := k + 1;
    }
    PartialEnds(added, lo, hi, mult, limit, k, i);
    if hi != lo {
      added := added + [hi];
    }
    r := Some(dst + added);
    assert r.value[|dst|..] == added;
  }

  /** A power of mult strictly between lo and hi is listed exactly if it is below the limit. */
  lemma ListedExactly(s: seq<int>, lo: int, hi: int, mult: nat, limit: int, k: nat)
    requires IsRange(s, lo, hi, mult, limit) && lo < Pow(mult, k) < hi
    ensures Pow(mult, k) in s <==> Pow(mult, k) < limit
  {
    assert PowerCovered(s, lo, hi, mult, limit, k);
  }

  /** 2^30 lies strictly between 1 and kint32max, and is left out of that range. */
  lemma LastPowerMissing(s: seq<int>)
    requires IsRange(s, 1, INT32_MAX, 2, Limit(2))
    ensures 1 < Pow(2, 30) < INT32_MAX && Pow(2, 30) !in s
  {
    PowAdds(2, 5, 5);
    PowAdds(2, 10, 10);
    PowAdds(2, 20, 10);
    assert Pow(2, 5) == 32;
    assert Pow(2, 30) == 0x4000_0000;
    ListedExactly(s, 1, INT32_MAX, 2, Limit(2), 30);
  }

  lemma {:induction false} PowAdds(mult: nat, j: nat, k: nat)
    ensures Pow(mult, j + k) == Pow(mult, j) * Pow(mult, k)
  {
    if j > 0 {
      PowAdds(mult, j - 1, k);
      assert Pow(mult, j + k) == mult * Pow(mult, j - 1 + k);
      assert mult * (Pow(mult, j - 1) * Pow(mult, k)) == (mult * Pow(mult, j - 1)) * Pow(mult, k);
    }
  }

  /** The multiplication stays within int32. */
  lemma Fits(i: int, mult: int)
    requires mult >= 2 && 1 <= i < Limit(mult)
    ensures i < mult * i <= INT32_MAX
  {
    var q := INT32_MAX / mult;
    assert mult * q <= INT32_MAX;
    MulMono(mult, i, q);
    MulMono(i, 2, mult);
  }

  // ----- Ranges: the odometer -----

  /** A counter value for lists of the given sizes. */
  ghost predicate Counter(ctr: seq<nat>, sizes: seq<nat>) {
    |ctr| == |sizes| && forall j :: 0 <= j < |sizes| ==> ctr[j] < sizes[j]
  }

  function Product(sizes: seq<nat>): nat {
    if sizes == [] then 1 else sizes[0] * Product(sizes[1..])
  }

  /** The number a counter stands for, its first digit the fastest. */
  function Value(ctr: seq<nat>, sizes: seq<nat>): nat
    requires |ctr| == |sizes|
  {
    if sizes == [] then 0 else ctr[0] + sizes[0] * Value(ctr[1..], sizes[1..])
  }

  /** Mixed-radix digits of n. */
  function Digits(n: nat, sizes: seq<nat>): (ctr: seq<nat>)
    requires forall j :: 0 <= j < |sizes| ==> sizes[j] > 0
    ensures |ctr| == |sizes|
    decreases sizes
  {
    if sizes == [] then [] else [n % sizes[0]] + Digits(n / sizes[0], sizes[1..])
  }

  /** One step of the inner loop that bumps the counter. */
  function Bump(ctr: seq<nat>, sizes: seq<nat>): (next: seq<nat>)
    requires |ctr| == |sizes|
    ensures |next| == |sizes|
  {
    if sizes == [] then []
    else if ctr[0] + 1 < sizes[0] then [ctr[0] + 1] + ctr[1..]
    else [0] + Bump(ctr[1..], sizes[1..])
  }

  lemma {:induction false} ValueBounds(ctr: seq<nat>, sizes: seq<nat>)
    requires Counter(ctr, sizes)
    ensures Value(ctr, sizes) < Product(sizes)
  {
    if sizes != [] {
      ValueBounds(ctr[1..], sizes[1..]);
      var s, v, p := sizes[0], Value(ctr[1..], sizes[1..]), Product(sizes[1..]);
      MulMono(s, v + 1, p);
      MulSucc(s, v);
    }
  }

  /** Bumping adds one, and wraps from the last tuple to all zeros. */
  lemma {:induction false} BumpCounts(ctr: seq<nat>, sizes: seq<nat>)
    requires Counter(ctr, sizes)
    ensures Counter(Bump(ctr, sizes), sizes)
    ensures Value(Bump(ctr, sizes), sizes) ==
      if Value(ctr, sizes) + 1 < Product(sizes) then Value(ctr, sizes) + 1 else 0
  {
    if sizes != [] {
      var s, v, p := sizes[0], Value(ctr[1..], sizes[1..]), Product(sizes[1..]);
      ValueBounds(ctr, sizes);
      if ctr[0] + 1 < s {
        var next := [ctr[0] + 1] + ctr[1..];
        assert next[1..] == ctr[1..];
        NotLast(ctr, sizes);
      } else {
        BumpCounts(ctr[1..], sizes[1..]);
        var next := [0] + Bump(ctr[1..], sizes[1..]);
        assert next[1..] == Bump(ctr[1..], sizes[1..]);
        ValueBounds(ctr[1..], sizes[1..]);
        CarryValue(s, v, p);
      }
    }
  }

  lemma NotLast(ctr: seq<nat>, sizes: seq<nat>)
    requires Counter(ctr, sizes) && sizes != [] && ctr[0] + 1 < sizes[0]
    ensures Value(ctr, sizes) + 1 < Product(sizes)
  {
    ValueBounds(ctr[1..], sizes[1..]);
    var s, v, p := sizes[0], Value(ctr[1..], sizes[1..]), Product(sizes[1..]);
    MulMono(s, v + 1, p);
    MulSucc(s, v);
  }

  /** With the first digit at its maximum, counting on is counting on the rest. */
  lemma CarryValue(s: nat, v: nat, p: nat)
    requires s > 0 && v < p
    ensures (s - 1) + s * v + 1 == s * (v + 1)
    ensures (s - 1) + s * v + 1 < s * p <==> v + 1 < p
  {
    MulSucc(s, v);
    if v + 1 < p {
      MulMono(s, v + 2, p);
      MulSucc(s, v + 1);
    }
  }

  lemma {:induction false} ValueOfZeros(sizes: seq<nat>)
    ensures Value(Zeros(|sizes|), sizes) == 0
  {
    if sizes != [] {
      ValueOfZeros(sizes[1..]);
      assert Zeros(|sizes|)[1..] == Zeros(|sizes| - 1);
    }
  }

  /** A counter is the mixed-radix notation of its value. */
  lemma {:induction false} DigitsOfValue(ctr: seq<nat>, sizes: seq<nat>)
    requires Counter(ctr, sizes)
    requires forall j :: 0 <= j < |sizes| ==> sizes[j] > 0
    ensures Digits(Value(ctr, sizes), sizes) == ctr
  {
    if sizes != [] {
      DigitsOfValue(ctr[1..], sizes[1..]);
      DivMod(ctr[0], Value(ctr[1..], sizes[1..]), sizes[0]);
    }
  }

  lemma DivMod(r: nat, q: nat, s: nat)
    requires r < s
    ensures (r + s * q) / s == q && (r + s * q) % s == r
  {
    var x := r + s * q;
    assert x == s * (x / s) + x % s;
    var d := x / s - q;
    assert s * d == r - x % s by { assert s * d == s * (x / s) - s * q; }
    Multiples(s, d);
  }

  /** Every number below the product is the value of some counter. */
  lemma {:induction false} CounterOf(n: nat, sizes: seq<nat>) returns (ctr: seq<nat>)
    requires forall j :: 0 <= j < |sizes| ==> sizes[j] > 0
    requires n < Product(sizes)
    ensures Counter(ctr, sizes) && Value(ctr, sizes) == n
    decreases |sizes|
  {
    if sizes == [] {
      ctr := [];
    } else {
      var q, d := Divide(n, sizes[0], Product(sizes[1..]));
      var rest := CounterOf(q, sizes[1..]);
      AddDigit(d, rest, sizes, q, n);
      ctr := [d] + rest;
    }
  }

  lemma DigitsAreCounter(n: nat, sizes: seq<nat>)
    requires forall j :: 0 <= j < |sizes| ==> sizes[j] > 0
    requires n < Product(sizes)
    ensures Counter(Digits(n, sizes), sizes) && Value(Digits(n, sizes), sizes) == n
  {
    var ctr := CounterOf(n, sizes);
    DigitsOfValue(ctr, sizes);
  }

  lemma AddDigit(d: nat, rest: seq<nat>, sizes: seq<nat>, q: nat, n: nat)
    requires sizes != [] && d < sizes[0] && Counter(rest, sizes[1..]) && Value(rest, sizes[1..]) == q
    requires n == d + sizes[0] * q
    ensures Counter([d] + rest, sizes) && Value([d] + rest, sizes) == n
  {
    var ctr := [d] + rest;
    assert ctr[1..] == rest;
    assert forall j :: 1 <= j < |sizes| ==> ctr[j] == rest[j - 1] && sizes[j] == sizes[1..][j - 1];
  }

  lemma Divide(n: nat, s: nat, p: nat) returns (q: nat, d: nat)
    requires s > 0 && n < s * p
    ensures n == d + s * q && d < s && q < p
  {
    q, d := n / s, n % s;
    if q >= p { MulMono(s, p, q); }
  }

  /** Every index tuple is reached at exactly one position of the enumeration. */
  lemma EveryTupleOnce(ctr: seq<nat>, sizes: seq<nat>)
    requires Counter(ctr, sizes) && forall j :: 0 <= j < |sizes| ==> sizes[j] > 0
    ensures Value(ctr, sizes) < Product(sizes) && Digits(Value(ctr, sizes), sizes) == ctr
    ensures forall i: nat :: i < Product(sizes) && Digits(i, sizes) == ctr ==> i == Value(ctr, sizes)
  {
    ValueBounds(ctr, sizes);
    DigitsOfValue(ctr, sizes);
    forall i: nat | i < Product(sizes) && Digits(i, sizes) == ctr ensures i == Value(ctr, sizes) {
      DigitsAreCounter(i, sizes);
    }
  }

  /** `next` is `ctr` with j digits already wrapped to zero and the rest untouched. */
  ghost predicate Wrapped(was: seq<nat>, now: seq<nat>, sizes: seq<nat>, j: nat)
    requires |was| == |sizes|
  {
    && |now| == |sizes| && j <= |sizes|
    && (forall k :: 0 <= k < j ==> now[k] == 0)
    && (forall k :: j <= k < |sizes| ==> now[k] == was[k])
    && (forall k :: 0 <= k < j ==> was[k] + 1 >= sizes[k])
  }

  function Zeros(j: nat): seq<nat> {
    seq(j, _ => 0)
  }

  lemma {:induction false} BumpFrom(was: seq<nat>, sizes: seq<nat>, j: nat)
    requires |was| == |sizes| && j <= |sizes| && forall k :: 0 <= k < j ==> was[k] + 1 >= sizes[k]
    ensures Bump(was, sizes) == Zeros(j) + Bump(was[j..], sizes[j..])
  {
    if j == 0 {
      assert was[0..] == was && sizes[0..] == sizes;
    } else {
      BumpFrom(was, sizes, j - 1);
      var w, z := was[j - 1..], sizes[j - 1..];
      assert w[1..] == was[j..] && z[1..] == sizes[j..];
      assert w[0] == was[j - 1] && z[0] == sizes[j - 1];
      assert Zeros(j) == Zeros(j - 1) + [0];
    }
  }

  method BumpInPlace(ctr: array<nat>, sizes: seq<nat>)
    requires ctr.Length == |sizes|
    modifies ctr
    ensures ctr[..] == Bump(old(ctr[..]), sizes)
  {
    ghost var was := ctr[..];
    var j := 0;
    while j < |sizes|
      invariant Wrapped(was, ctr[..], sizes, j)
    {
      if ctr[j] + 1 < sizes[j] {
        ctr[j] := ctr[j] + 1;
        BumpFrom(was, sizes, j);
        assert ctr[..] == Zeros(j) + ([was[j] + 1] + was[j..][1..]);
        return;
      }
      ctr[j] := 0;
      j := j + 1;
    }
    BumpFrom(was, sizes, j);
    assert ctr[..] == Zeros(j);
  }

  function Sizes(lists: seq<seq<int>>): (sizes: seq<nat>)
    ensures |sizes| == |lists| && forall j :: 0 <= j < |lists| ==> sizes[j] == |lists[j]|
  {
    seq(|lists|, j requires 0 <= j < |lists| => |lists[j]|)
  }

  /** The arguments picked by a counter, one from each list. */
  function Pick(lists: seq<seq<int>>, ctr: seq<nat>): seq<int>
    requires Counter(ctr, Sizes(lists))
  {
    seq(|lists|, j requires 0 <= j < |lists| => lists[j][ctr[j]])
  }

  ghost predicate AllRanges(lists: seq<seq<int>>, ranges: seq<(int, int)>, mult: int)
    requires mult >= 2
  {
    && |lists| == |ranges|
    && forall j :: 0 <= j < |lists| ==> IsRange(lists[j], ranges[j].0, ranges[j].1, mult, Limit(mult))
  }

  predicate Checked(ranges: seq<(int, int)>, mult: int) {
    forall j :: 0 <= j < |ranges| ==> 0 <= ranges[j].0 <= ranges[j].1 && mult >= 2
  }

  method BuildLists(ranges: seq<(int, int)>, mult: int) returns (r: Option<seq<seq<int>>>, total: nat)
    ensures r == None <==> !Checked(ranges, mult)
    ensures r != None ==> |r.value| == |ranges| && total == Product(Sizes(r.value))
    ensures r != None && mult >= 2 ==> AllRanges(r.value, ranges, mult)
    ensures r != None ==> forall j :: 0 <= j < |ranges| ==> r.value[j] != []
  {
    var lists: seq<seq<int>> := [];
    total := 1;
    for i := 0 to |ranges|
      invariant |lists| == i && total == Product(Sizes(lists))
      invariant forall j :: 0 <= j < i ==> 0 <= ranges[j].0 <= ranges[j].1 && mult >= 2
      invariant forall j :: 0 <= j < i ==>
        lists[j] != [] && IsRange(lists[j], ranges[j].0, ranges[j].1, mult, Limit(mult))
    {
      var l := AddRange([], ranges[i].0, ranges[i].1, mult);
      if l == None { return None, total; }
      assert l.value[0..] == l.value;
      ProductAppend(Sizes(lists), |l.value|);
      assert Sizes(lists + [l.value]) == Sizes(lists) + [|l.value|];
      lists := lists + [l.value];
      total := total * |l.value|;
    }
    r := Some(lists);
  }

  lemma {:induction false} ProductAppend(sizes: seq<nat>, n: nat)
    ensures Product(sizes + [n]) == Product(sizes) * n
  {
    if sizes == [] {
      assert ([] + [n])[1..] == [];
    } else {
      assert (sizes + [n])[1..] == sizes[1..] + [n];
      ProductAppend(sizes[1..], n);
      assert sizes[0] * (Product(sizes[1..]) * n) == (sizes[0] * Product(sizes[1..])) * n;
    }
  }

  /** The inner loop that reads one tuple off the odometer. */
  method ReadTuple(lists: seq<seq<int>>, ctr: array<nat>) returns (tmp: seq<int>)
    requires Counter(ctr[..], Sizes(lists))
    ensures tmp == Pick(lists, ctr[..])
  {
    tmp := [];
    for j := 0 to |lists|
      invariant |tmp| == j
      invariant forall k :: 0 <= k < j ==> ctr[..][k] < Sizes(lists)[k] && tmp[k] == lists[k][ctr[..][k]]
    {
      assert ctr[..][j] < Sizes(lists)[j];
      tmp := tmp + [lists[j][ctr[j]]];
    }
  }

  /** The first i tuples have been appended: the k-th is picked by the digits of k. */
  ghost predicate Enumerated(r: seq<seq<int>>, args: seq<seq<int>>, lists: seq<seq<int>>, i: nat) {
    && |r| == |args| + i && r[..|args|] == args
    && (forall j :: 0 <= j < |lists| ==> lists[j] != [])
    && forall k: nat :: k < i ==>
         Counter(Digits(k, Sizes(lists)), Sizes(lists)) && r[|args| + k] == Pick(lists, Digits(k, Sizes(lists)))
  }

  lemma EnumeratedExtends(r: seq<seq<int>>, args: seq<seq<int>>, lists: seq<seq<int>>, i: nat, ctr: seq<nat>)
    requires Enumerated(r, args, lists, i) && Counter(ctr, Sizes(lists)) && Digits(i, Sizes(lists)) == ctr
    ensures Enumerated(r + [Pick(lists, ctr)], args, lists, i + 1)
  {
    var r' := r + [Pick(lists, ctr)];
    assert r'[..|args|] == r[..|args|];
    forall k: nat | k < i + 1
      ensures Counter(Digits(k, Sizes(lists)), Sizes(lists)) && r'[|args| + k] == Pick(lists, Digits(k, Sizes(lists)))
    {
      if k < i { assert r'[|args| + k] == r[|args| + k]; }
    }
  }

  /** Appends the tuples of the Cartesian product, the i-th being picked by the mixed-radix digits of
      i with the first coordinate fastest; the odometer ends where it began. */
  method Enumerate(args: seq<seq<int>>, lists: seq<seq<int>>, total: nat) returns (r: seq<seq<int>>, odometer: seq<nat>)
    requires total == Product(Sizes(lists)) && forall j :: 0 <= j < |lists| ==> lists[j] != []
    ensures Enumerated(r, args, lists, total)
    ensures odometer == Zeros(|lists|)
  {
    var sizes := Sizes(lists);
    var ctr := new nat[|lists|](_ => 0);
    assert ctr[..] == Zeros(|lists|);
    ValueOfZeros(sizes);
    r := args;
    var i := 0;
    while i < total
      invariant i <= total && Enumerated(r, args, lists, i)
      invariant Counter(ctr[..], sizes) && Value(ctr[..], sizes) == if i < total then i else 0
    {
      DigitsOfValue(ctr[..], sizes);
      BumpCounts(ctr[..], sizes);
      EnumeratedExtends(r, args, lists, i, ctr[..]);
      var tmp := ReadTuple(lists, ctr);
      r := r + [tmp];
      BumpInPlace(ctr, sizes);
      i := i + 1;
    }
    odometer := ctr[..];
    DigitsOfValue(odometer, sizes);
    DigitsOfZero(sizes);
  }

  lemma {:induction false} DigitsOfZero(sizes: seq<nat>)
    requires forall j :: 0 <= j < |sizes| ==> sizes[j] > 0
    ensures Digits(0, sizes) == Zeros(|sizes|)
  {
    if sizes != [] {
      DigitsOfZero(sizes[1..]);
      assert Zeros(|sizes|) == [0] + Zeros(|sizes| - 1);
    }
  }

  // ----- The Cartesian product -----

  /** A tuple with one value from each list. */
  ghost predicate FromEach(lists: seq<seq<int>>, t: seq<int>) {
    |t| == |lists| && forall j :: 0 <= j < |lists| ==> t[j] in lists[j]
  }

  /** Where in its list the j-th value of the i-th tuple stands: the first coordinate changes with every
      tuple, each later one once per round of all those before it. */
  function Place(lists: seq<seq<int>>, i: nat, j: nat): nat
    requires j < |lists| && forall k :: 0 <= k < |lists| ==> lists[k] != []
  {
    AllNonZero(Sizes(lists), j);
    DigitOf(i, |lists[j]|, Product(Sizes(lists)[..j]))
  }

  /** Exactly the tuples with one value from each list, each once, in the order of `Place`. */
  ghost predicate IsProduct(lists: seq<seq<int>>, tuples: seq<seq<int>>) {
    && (forall j :: 0 <= j < |lists| ==> lists[j] != [])
    && (forall t :: t in tuples <==> FromEach(lists, t))
    && (forall i, k :: 0 <= i < k < |tuples| ==> tuples[i] != tuples[k])
    && (forall i: nat, j: nat :: i < |tuples| && j < |lists| && j < |tuples[i]| ==>
          tuples[i][j] == lists[j][Place(lists, i, j)])
  }

  lemma {:induction false} AllNonZero(sizes: seq<nat>, j: nat)
    requires j <= |sizes| && forall k :: 0 <= k < |sizes| ==> sizes[k] > 0
    ensures Product(sizes[..j]) > 0
  {
    if j > 0 {
      assert sizes[..j][1..] == sizes[1..][..j - 1];
      AllNonZero(sizes[1..], j - 1);
      MulMono(sizes[0], 1, Product(sizes[1..][..j - 1]));
    }
  }

  lemma DivDiv(n: nat, a: nat, b: nat)
    requires a > 0 && b > 0
    ensures a * b > 0 && (n / a) / b == n / (a * b)
  {
    MulMono(a, 1, b);
    var x := n / a;
    var y, r1, r2 := x / b, n % a, x % b;
    assert n == a * x + r1 && x == b * y + r2;
    MulMono(a, r2, b - 1);
    assert a * (b - 1) == a * b - a;
    assert a * (b * y + r2) == (a * b) * y + a * r2;
    DivMod(a * r2 + r1, y, a * b);
  }

  /** The j-th mixed-radix digit by itself. */
  function DigitOf(n: nat, size: nat, before: nat): nat
    requires size > 0 && before > 0
  {
    (n / before) % size
  }

  lemma DigitFirst(n: nat, size: nat)
    requires size > 0
    ensures DigitOf(n, size, 1) == n % size
  {
  }

  lemma {:induction false} DigitAt(n: nat, sizes: seq<nat>, j: nat)
    requires j < |sizes| && forall k :: 0 <= k < |sizes| ==> sizes[k] > 0
    ensures Product(sizes[..j]) > 0
    ensures Digits(n, sizes)[j] == DigitOf(n, sizes[j], Product(sizes[..j]))
    decreases j
  {
    AllNonZero(sizes, j);
    var d := Digits(n / sizes[0], sizes[1..]);
    assert Digits(n, sizes) == [n % sizes[0]] + d;
    if j == 0 {
      DigitFirst(n, sizes[0]);
    } else {
      DigitAt(n / sizes[0], sizes[1..], j - 1);
      DigitStep(n, sizes, j, Product(sizes[1..][..j - 1]), Product(sizes[..j]));
      assert Digits(n, sizes)[j] == d[j - 1];
    }
  }

  lemma DigitStep(n: nat, sizes: seq<nat>, j: nat, p: nat, q: nat)
    requires 0 < j < |sizes| && sizes[0] > 0 && sizes[j] > 0
    requires p == Product(sizes[1..][..j - 1]) && p > 0 && q == Product(sizes[..j]) && q > 0
    ensures DigitOf(n / sizes[0], sizes[1..][j - 1], p) == DigitOf(n, sizes[j], q)
  {
    assert sizes[..j][1..] == sizes[1..][..j - 1];
    assert q == sizes[0] * p;
    DivDiv(n, sizes[0], p);
    assert sizes[1..][j - 1] == sizes[j];
  }

  /** The positions of a tuple's values in their lists. */
  lemma {:induction false} Positions(lists: seq<seq<int>>, t: seq<int>) returns (ctr: seq<nat>)
    requires FromEach(lists, t)
    ensures |ctr| == |lists| && forall j :: 0 <= j < |lists| ==> ctr[j] < |lists[j]| && lists[j][ctr[j]] == t[j]
  {
    if lists == [] {
      ctr := [];
    } else {
      var k := |lists| - 1;
      var first := Positions(lists[..k], t[..k]);
      assert t[k] in lists[k];
      var i :| 0 <= i < |lists[k]| && lists[k][i] == t[k];
      ctr := first + [i];
    }
  }

  /** A tuple from the lists is appended, at the value of its positions. */
  lemma Appended(lists: seq<seq<int>>, tuples: seq<seq<int>>, t: seq<int>)
    requires Enumerated(tuples, [], lists, Product(Sizes(lists))) && FromEach(lists, t)
    ensures t in tuples
  {
    var ctr := Positions(lists, t);
    var sizes := Sizes(lists);
    EveryTupleOnce(ctr, sizes);
    var i := Value(ctr, sizes);
    assert tuples[i] == Pick(lists, Digits(i, sizes));
    assert Pick(lists, ctr) == t;
  }

  lemma AppendedAt(lists: seq<seq<int>>, tuples: seq<seq<int>>, i: nat, j: nat)
    requires Enumerated(tuples, [], lists, Product(Sizes(lists))) && i < |tuples| && j < |lists|
    ensures |tuples[i]| == |lists| && tuples[i][j] == lists[j][Place(lists, i, j)]
    ensures Digits(i, Sizes(lists))[j] == Place(lists, i, j)
  {
    DigitAt(i, Sizes(lists), j);
    assert tuples[i] == Pick(lists, Digits(i, Sizes(lists)));
  }

  /** Lists without repetition give tuples without repetition. */
  lemma AppendedOnce(lists: seq<seq<int>>, tuples: seq<seq<int>>, i: nat, k: nat)
    requires Enumerated(tuples, [], lists, Product(Sizes(lists))) && i < k < |tuples|
    requires forall j :: 0 <= j < |lists| ==> StrictlyIncreasing(lists[j])
    ensures tuples[i] != tuples[k]
  {
    var sizes := Sizes(lists);
    var c, d := Digits(i, sizes), Digits(k, sizes);
    assert tuples[i] == Pick(lists, c) && tuples[k] == Pick(lists, d);
    DigitsAreCounter(i, sizes);
    DigitsAreCounter(k, sizes);
    var j := Different(c, d);
    assert tuples[i][j] == lists[j][c[j]] && tuples[k][j] == lists[j][d[j]];
  }

  lemma Different(c: seq<nat>, d: seq<nat>) returns (j: nat)
    requires |c| == |d| && c != d
    ensures j < |c| && c[j] != d[j]
  {
    j :| 0 <= j < |c| && c[j] != d[j];
  }

  /** What is enumerated by counting is the Cartesian product. */
  lemma CountingIsProduct(lists: seq<seq<int>>, tuples: seq<seq<int>>)
    requires Enumerated(tuples, [], lists, Product(Sizes(lists)))
    requires forall j :: 0 <= j < |lists| ==> StrictlyIncreasing(lists[j])
    ensures IsProduct(lists, tuples)
  {
    forall t | FromEach(lists, t) ensures t in tuples {
      Appended(lists, tuples, t);
    }
    forall t | t in tuples ensures FromEach(lists, t) {
      var i :| 0 <= i < |tuples| && tuples[i] == t;
      assert tuples[i] == Pick(lists, Digits(i, Sizes(lists)));
    }
    forall i, k | 0 <= i < k < |tuples| ensures tuples[i] != tuples[k] {
      AppendedOnce(lists, tuples, i, k);
    }
    forall i: nat, j: nat | i < |tuples| && j < |lists| && j < |tuples[i]|
      ensures tuples[i][j] == lists[j][Place(lists, i, j)]
    {
      AppendedAt(lists, tuples, i, j);
    }
  }

  /** In a product the first coordinate changes with every tuple. */
  lemma FirstFastest(lists: seq<seq<int>>, tuples: seq<seq<int>>, i: nat)
    requires IsProduct(lists, tuples) && lists != [] && i < |tuples|
    ensures |tuples[i]| == |lists| && tuples[i][0] == lists[0][i % |lists[0]|]
  {
    assert tuples[i] in tuples;
    assert tuples[i][0] == lists[0][Place(lists, i, 0)];
    assert Sizes(lists)[..0] == [];
    DigitFirst(i, |lists[0]|);
  }

  lemma AfterArgs(r: seq<seq<int>>, args: seq<seq<int>>, lists: seq<seq<int>>, total: nat)
    requires Enumerated(r, args, lists, total)
    ensures Enumerated(r[|args|..], [], lists, total)
  {
    var tuples := r[|args|..];
    forall k: nat | k < total
      ensures Counter(Digits(k, Sizes(lists)), Sizes(lists))
      ensures tuples[k] == Pick(lists, Digits(k, Sizes(lists)))
    {
      assert r[|args| + k] == Pick(lists, Digits(k, Sizes(lists)));
    }
  }

  /** `Ranges` itself; `argsCnt` is -1 or the tuple length fixed by earlier calls. */
  method RangesOf(args: seq<seq<int>>, argsCnt: int, ranges: seq<(int, int)>, mult: int)
    returns (r: Option<seq<seq<int>>>, lists: seq<seq<int>>)
    ensures r == None <==> (argsCnt != -1 && argsCnt != |ranges|) || !Checked(ranges, mult)
    ensures r != None && mult >= 2 ==> AllRanges(lists, ranges, mult)
    ensures r != None ==> |lists| == |ranges| && Enumerated(r.value, args, lists, Product(Sizes(lists)))
    ensures r != None ==> |args| <= |r.value| && r.value[..|args|] == args && IsProduct(lists, r.value[|args|..])
  {
    if argsCnt != -1 && argsCnt != |ranges| { return None, []; }
    var built, total := BuildLists(ranges, mult);
    if built == None { return None, []; }
    lists := built.value;
    var out, odometer := Enumerate(args, lists, total);
    r := Some(out);
    AfterArgs(out, args, lists, total);
    assert ranges != [] ==> 0 <= ranges[0].0 && mult >= 2;
    CountingIsProduct(lists, out[|args|..]);
  }
}
