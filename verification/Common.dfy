/** Small types and counting facts shared by the models of this project. */
module Common {

  datatype Option<+T> = None | Some(value: T)

  /** Threads are numbered from 0; a model has any fixed number of them. */
  type Tid = nat

  /** The threads whose program counter satisfies p. */
  ghost function Where<X>(xs: seq<X>, p: X -> bool): set<Tid> {
    set i | 0 <= i < |xs| && p(xs[i])
  }

  /** Moving one thread changes such a count by at most one, either way. */
  lemma WhereUpdate<X>(xs: seq<X>, i: Tid, x: X, p: X -> bool)
    requires i < |xs|
    ensures |Where(xs[i := x], p)| == |Where(xs, p)| - (if p(xs[i]) then 1 else 0) + (if p(x) then 1 else 0)
  {
    var before, after := Where(xs, p), Where(xs[i := x], p);
    assert before - {i} == after - {i};
    WithoutOne(before, i);
    WithoutOne(after, i);
  }

  lemma WithoutOne(s: set<Tid>, i: Tid)
    ensures |s - {i}| == |s| - if i in s then 1 else 0
  {
    if i !in s { assert s - {i} == s; }
  }

  /** A non-zero multiple of n is at least n away from zero. */
  lemma Multiples(n: nat, k: int)
    ensures k >= 1 ==> n * k >= n
    ensures k <= -1 ==> n * k <= 0 - n
  {
    if k >= 1 {
      Scaled(n, k - 1);
    } else if k <= -1 {
      Scaled(n, -1 - k);
      assert n * k == 0 - n - n * (-1 - k);
    }
  }

  lemma Scaled(n: nat, j: nat)
    ensures n * j >= 0 && n * (j + 1) == n * j + n
  {
  }

  lemma {:induction false} WhereAll<X>(xs: seq<X>, p: X -> bool)
    requires forall i :: 0 <= i < |xs| ==> p(xs[i])
    ensures |Where(xs, p)| == |xs|
  {
    if xs != [] {
      var k := |xs| - 1;
      WhereAll(xs[..k], p);
      assert Where(xs, p) == Where(xs[..k], p) + {k};
    }
  }
}
