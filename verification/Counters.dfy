/** Per-thread results and user counters, and merging them into the shared total
    (benchmark/src/benchmark.cc `ThreadManager::Result`, benchmark/src/counter.cc).
    Doubles are reals and the integer fields are unbounded. */
module Counters {

  datatype Counter = Counter(value: real, flags: int)

  type UserCounters = map<string, Counter>

  /** Values of shared names add up, under the flags already there; other counters are kept. */
  function Increment(l: UserCounters, r: UserCounters): UserCounters {
    map k | k in l.Keys + r.Keys ::
      if k !in r then l[k] else if k !in l then r[k] else Counter(l[k].value + r[k].value, l[k].flags)
  }

  /** The counters a run accumulates, updated in place. */
  class CounterTable {
    var m: UserCounters

    constructor ()
      ensures m == map[]
    {
      m := map[];
    }

    /** Two passes, as in the source: first the names already there, then the new ones. */
    method IncrementBy(r: UserCounters)
      modifies this
      ensures m == Increment(old(m), r)
    {
      ghost var l := m;
      var keys := m.Keys;
      while keys != {}
        invariant keys <= l.Keys == m.Keys
        invariant forall k :: k in keys ==> m[k] == l[k]
        invariant forall k :: k in l && k !in keys ==> m[k] == Increment(l, r)[k]
      {
        var k :| k in keys;
        if k in r {
          m := m[k := m[k].(value := m[k].value + r[k].value)];
        }
        keys := keys - {k};
      }
      keys := r.Keys;
      while keys != {}
        invariant keys <= r.Keys && l.Keys <= m.Keys <= l.Keys + r.Keys
        invariant forall k :: k in m ==> m[k] == Increment(l, r)[k]
        invariant forall k :: k in r && k !in keys ==> k in m
      {
        var k :| k in keys;
        if k !in m {
          m := m[k := r[k]];
        }
        keys := keys - {k};
      }
    }
  }

  datatype Result = Result(
    real_time: real,
    cpu_time: real,
    manual_time: real,
    bytes: int,
    items: int,
    complexity_n: int,
    counters: UserCounters)

  const EMPTY := Result(0.0, 0.0, 0.0, 0, 0, 0, map[])

  /** What one thread adds to the shared result under the benchmark mutex. */
  function Merge(total: Result, r: Result): Result {
    Result(total.real_time + r.real_time,
           total.cpu_time + r.cpu_time,
           total.manual_time + r.manual_time,
           total.bytes + r.bytes,
           total.items + r.items,
           total.complexity_n + r.complexity_n,
           Increment(total.counters, r.counters))
  }

  /** The result the threads share, updated in place under the benchmark mutex. */
  class SharedResult {
    var real_time: real
    var cpu_time: real
    var manual_time: real
    var bytes: int
    var items: int
    var complexity_n: int
    const counters: CounterTable

    ghost function Value(): Result
      reads this, counters
    {
      Result(real_time, cpu_time, manual_time, bytes, items, complexity_n, counters.m)
    }

    constructor ()
      ensures Value() == EMPTY && fresh(counters)
    {
      real_time, cpu_time, manual_time, bytes, items, complexity_n := 0.0, 0.0, 0.0, 0, 0, 0;
      counters := new CounterTable();
    }

    method Add(r: Result)
      modifies this, counters
      ensures Value() == Merge(old(Value()), r)
    {
      cpu_time := cpu_time + r.cpu_time;
      real_time := real_time + r.real_time;
      manual_time := manual_time + r.manual_time;
      bytes := bytes + r.bytes;
      items := items + r.items;
      complexity_n := complexity_n + r.complexity_n;
      counters.IncrementBy(r.counters);
    }
  }

  /** The shared result after the threads in `order` have merged, one after another. */
  function MergeAll(contrib: seq<Result>, order: seq<nat>): Result
    requires forall i :: 0 <= i < |order| ==> order[i] < |contrib|
  {
    if order == [] then EMPTY
    else Merge(MergeAll(contrib, order[..|order| - 1]), contrib[order[|order| - 1]])
  }

  // ----- A merged result is a sum, whatever the order -----

  /** The quantities of a result; a counter that is not there counts as zero. */
  datatype Quantity = RealTime | CpuTime | ManualTime | Bytes | Items | ComplexityN | UserCounter(name: string)

  function Get(q: Quantity, r: Result): real {
    match q
    case RealTime => r.real_time
    case CpuTime => r.cpu_time
    case ManualTime => r.manual_time
    case Bytes => r.bytes as real
    case Items => r.items as real
    case ComplexityN => r.complexity_n as real
    case UserCounter(name) => if name in r.counters then r.counters[name].value else 0.0
  }

  function Sum(contrib: seq<Result>, q: Quantity): real {
    if contrib == [] then 0.0 else Sum(contrib[..|contrib| - 1], q) + Get(q, contrib[|contrib| - 1])
  }

  /** The sum over the threads in s alone. */
  function SumIn(contrib: seq<Result>, q: Quantity, s: set<nat>): real {
    if contrib == [] then 0.0
    else
      var n := |contrib| - 1;
      SumIn(contrib[..n], q, s) + if n in s then Get(q, contrib[n]) else 0.0
  }

  lemma {:induction false} SumInAdd(contrib: seq<Result>, q: Quantity, s: set<nat>, t: nat)
    requires t !in s
    ensures SumIn(contrib, q, s + {t}) == SumIn(contrib, q, s) + if t < |contrib| then Get(q, contrib[t]) else 0.0
  {
    if contrib != [] {
      SumInAdd(contrib[..|contrib| - 1], q, s, t);
    }
  }

  lemma {:induction false} SumInEmpty(contrib: seq<Result>, q: Quantity)
    ensures SumIn(contrib, q, {}) == 0.0
  {
    if contrib != [] { SumInEmpty(contrib[..|contrib| - 1], q); }
  }

  lemma {:induction false} SumInAll(contrib: seq<Result>, q: Quantity, s: set<nat>)
    requires forall t :: 0 <= t < |contrib| ==> t in s
    ensures SumIn(contrib, q, s) == Sum(contrib, q)
  {
    if contrib != [] { SumInAll(contrib[..|contrib| - 1], q, s); }
  }

  ghost function Elements(order: seq<nat>): set<nat> {
    set t | t in order
  }

  lemma {:induction false} MergedIsSumIn(contrib: seq<Result>, order: seq<nat>, q: Quantity)
    requires forall i :: 0 <= i < |order| ==> order[i] < |contrib|
    requires forall i, j :: 0 <= i < j < |order| ==> order[i] != order[j]
    ensures Get(q, MergeAll(contrib, order)) == SumIn(contrib, q, Elements(order))
    decreases |order|
  {
    if order == [] {
      SumInEmpty(contrib, q);
      assert Elements(order) == {};
    } else {
      var k := |order| - 1;
      var rest, t := order[..k], order[k];
      assert order == rest + [t] && t !in rest;
      assert Elements(order) == Elements(rest) + {t};
      MergedIsSumIn(contrib, rest, q);
      SumInAdd(contrib, q, Elements(rest), t);
    }
  }

  /** Every thread merges exactly once. */
  ghost predicate Ordering(contrib: seq<Result>, order: seq<nat>) {
    && (forall i :: 0 <= i < |order| ==> order[i] < |contrib|)
    && (forall t :: 0 <= t < |contrib| ==> t in order)
    && (forall i, j :: 0 <= i < j < |order| ==> order[i] != order[j])
  }

  /** Once every thread has merged exactly once, in any order, each quantity of the
      shared result is its exact sum over the threads. */
  lemma MergedIsSum(contrib: seq<Result>, order: seq<nat>, q: Quantity)
    requires Ordering(contrib, order)
    ensures Get(q, MergeAll(contrib, order)) == Sum(contrib, q)
  {
    MergedIsSumIn(contrib, order, q);
    SumInAll(contrib, q, Elements(order));
  }

  /** A counter is present afterwards exactly when some merged thread had it. */
  lemma {:induction false} MergedNames(contrib: seq<Result>, order: seq<nat>, name: string)
    requires forall i :: 0 <= i < |order| ==> order[i] < |contrib|
    ensures name in MergeAll(contrib, order).counters <==> exists t :: t in order && name in contrib[t].counters
    decreases |order|
  {
    if order != [] {
      var k := |order| - 1;
      assert order == order[..k] + [order[k]];
      MergedNames(contrib, order[..k], name);
      if name in MergeAll(contrib, order[..k]).counters {
        var t :| t in order[..k] && name in contrib[t].counters;
        assert t in order;
      }
    }
  }

  // ----- When the whole result is independent of the order -----

  /** order[i] is the first merged thread that has the counter. */
  ghost predicate IsFirst(contrib: seq<Result>, order: seq<nat>, name: string, i: nat)
    requires forall j :: 0 <= j < |order| ==> order[j] < |contrib|
  {
    && i < |order| && name in contrib[order[i]].counters
    && forall j :: 0 <= j < i ==> name !in contrib[order[j]].counters
  }

  /** A merged counter has the flags of the first merged thread that has it. */
  lemma {:induction false} FirstDecides(contrib: seq<Result>, order: seq<nat>, name: string, i: nat)
    requires forall j :: 0 <= j < |order| ==> order[j] < |contrib|
    requires IsFirst(contrib, order, name, i)
    ensures name in MergeAll(contrib, order).counters
    ensures MergeAll(contrib, order).counters[name].flags == contrib[order[i]].counters[name].flags
    decreases |order|
  {
    var k := |order| - 1;
    if i < k {
      FirstDecides(contrib, order[..k], name, i);
    } else {
      MergedNames(contrib, order[..k], name);
    }
  }

  lemma {:induction false} FirstWith(contrib: seq<Result>, order: seq<nat>, name: string, i: nat) returns (f: nat)
    requires forall j :: 0 <= j < |order| ==> order[j] < |contrib|
    requires i < |order| && name in contrib[order[i]].counters
    ensures f <= i && IsFirst(contrib, order, name, f)
  {
    f := i;
    if j :| 0 <= j < i && name in contrib[order[j]].counters {
      f := FirstWith(contrib, order, name, j);
    }
  }

  lemma SameNumbers(contrib: seq<Result>, o: seq<nat>, p: seq<nat>, q: Quantity)
    requires Ordering(contrib, o) && Ordering(contrib, p)
    ensures Get(q, MergeAll(contrib, o)) == Get(q, MergeAll(contrib, p))
  {
    MergedIsSum(contrib, o, q);
    MergedIsSum(contrib, p, q);
  }

  /** For each counter, the first thread to merge it gives it the same flags in both orders. */
  ghost predicate FirstsAgree(contrib: seq<Result>, o: seq<nat>, p: seq<nat>)
    requires Ordering(contrib, o) && Ordering(contrib, p)
  {
    forall name, i: nat, j: nat :: IsFirst(contrib, o, name, i) && IsFirst(contrib, p, name, j) ==>
      contrib[o[i]].counters[name].flags == contrib[p[j]].counters[name].flags
  }

  lemma FirstOf(contrib: seq<Result>, order: seq<nat>, name: string, t: nat) returns (f: nat)
    requires Ordering(contrib, order) && t < |contrib| && name in contrib[t].counters
    ensures IsFirst(contrib, order, name, f)
    ensures name in MergeAll(contrib, order).counters
    ensures MergeAll(contrib, order).counters[name].flags == contrib[order[f]].counters[name].flags
  {
    assert t in order;
    var i :| 0 <= i < |order| && order[i] == t;
    f := FirstWith(contrib, order, name, i);
    FirstDecides(contrib, order, name, f);
  }

  lemma SameCounters(contrib: seq<Result>, o: seq<nat>, p: seq<nat>)
    requires Ordering(contrib, o) && Ordering(contrib, p) && FirstsAgree(contrib, o, p)
    ensures MergeAll(contrib, o).counters == MergeAll(contrib, p).counters
  {
    var a, b := MergeAll(contrib, o).counters, MergeAll(contrib, p).counters;
    forall name ensures name in a <==> name in b {
      MergedNames(contrib, o, name);
      MergedNames(contrib, p, name);
    }
    forall name | name in a ensures a[name] == b[name] {
      MergedNames(contrib, o, name);
      var t :| t in o && name in contrib[t].counters;
      var i := FirstOf(contrib, o, name, t);
      var j := FirstOf(contrib, p, name, t);
      SameNumbers(contrib, o, p, UserCounter(name));
    }
  }

  /** Two orders give the same result, counters and all, if and only if they agree on each counter's
      first flags. */
  lemma SameResultExactly(contrib: seq<Result>, o: seq<nat>, p: seq<nat>)
    requires Ordering(contrib, o) && Ordering(contrib, p)
    ensures MergeAll(contrib, o) == MergeAll(contrib, p) <==> FirstsAgree(contrib, o, p)
  {
    if FirstsAgree(contrib, o, p) {
      SameCounters(contrib, o, p);
      SameNumbers(contrib, o, p, RealTime);
      SameNumbers(contrib, o, p, CpuTime);
      SameNumbers(contrib, o, p, ManualTime);
      SameNumbers(contrib, o, p, Bytes);
      SameNumbers(contrib, o, p, Items);
      SameNumbers(contrib, o, p, ComplexityN);
    } else {
      var name, i: nat, j: nat :| IsFirst(contrib, o, name, i) && IsFirst(contrib, p, name, j) &&
        contrib[o[i]].counters[name].flags != contrib[p[j]].counters[name].flags;
      FirstDecides(contrib, o, name, i);
      FirstDecides(contrib, p, name, j);
    }
  }

  /** Threads that share a counter name give it the same flags. */
  ghost predicate FlagsAgree(contrib: seq<Result>) {
    forall t, u, name :: 0 <= t < |contrib| && 0 <= u < |contrib| ==>
      name in contrib[t].counters && name in contrib[u].counters ==>
      contrib[t].counters[name].flags == contrib[u].counters[name].flags
  }

  /** Thread t first, the others in turn. */
  function StartingWith(n: nat, t: nat): seq<nat>
    requires t < n
  {
    [t] + seq(n - 1, i requires 0 <= i => if i < t then i else i + 1)
  }

  lemma StartingWithOrders(contrib: seq<Result>, t: nat)
    requires t < |contrib|
    ensures Ordering(contrib, StartingWith(|contrib|, t))
  {
    var o := StartingWith(|contrib|, t);
    forall u | 0 <= u < |contrib| ensures u in o {
      if u == t { assert o[0] == u; } else if u < t { assert o[u + 1] == u; } else { assert o[u] == u; }
    }
  }

  ghost predicate OrderIrrelevant(contrib: seq<Result>) {
    forall o, p :: Ordering(contrib, o) && Ordering(contrib, p) ==> MergeAll(contrib, o) == MergeAll(contrib, p)
  }

  /** Merging itself is independent of the order, over all permutations of the threads, if and only if
      any two threads that share a counter name give it the same flags.  (A barrier may rule some of
      these permutations out.) */
  lemma OrderMattersExactly(contrib: seq<Result>)
    ensures OrderIrrelevant(contrib) <==> FlagsAgree(contrib)
  {
    if FlagsAgree(contrib) {
      forall o, p | Ordering(contrib, o) && Ordering(contrib, p)
        ensures MergeAll(contrib, o) == MergeAll(contrib, p)
      {
        SameResultExactly(contrib, o, p);
      }
    } else {
      var t, u, name :| 0 <= t < |contrib| && 0 <= u < |contrib| &&
        name in contrib[t].counters && name in contrib[u].counters &&
        contrib[t].counters[name].flags != contrib[u].counters[name].flags;
      StartingWithOrders(contrib, t);
      StartingWithOrders(contrib, u);
      FirstDecides(contrib, StartingWith(|contrib|, t), name, 0);
      FirstDecides(contrib, StartingWith(|contrib|, u), name, 0);
    }
  }

  /** Flags are not part of the sums: merging two tables in either order gives the same table exactly
      when names present in both carry the same flags; otherwise the first one merged decides. */
  lemma IncrementCommutes(a: UserCounters, b: UserCounters)
    ensures Increment(a, b) == Increment(b, a) <==> forall k :: k in a && k in b ==> a[k].flags == b[k].flags
  {
    var ab, ba := Increment(a, b), Increment(b, a);
    if ab == ba {
      forall k | k in a && k in b ensures a[k].flags == b[k].flags {
        assert ab[k] == ba[k];
      }
    } else {
      assert ab.Keys == ba.Keys;
      var k :| k in ab && ab[k] != ba[k];
    }
  }

  /** Two threads that register "c" with different flags: the merge order shows. */
  lemma FlagsDependOnOrder()
    ensures Increment(map["c" := Counter(1.0, 0)], map["c" := Counter(1.0, 1)])
         != Increment(map["c" := Counter(1.0, 1)], map["c" := Counter(1.0, 0)])
  {
    var a, b := map["c" := Counter(1.0, 0)], map["c" := Counter(1.0, 1)];
    assert "c" in a && "c" in b && a["c"].flags != b["c"].flags;
    IncrementCommutes(a, b);
  }
}
