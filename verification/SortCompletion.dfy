/** How the parallel sort of src/9_thread_pool.cpp comes to an end: every run can be completed, the steps
    of its calls are counted, and the calls nest logarithmically deep. */
module SortCompletion {
  import opened ParallelSort

  // ----- Every run can be completed, in a known number of calls' steps -----

  /** The steps other than swaps that a call on n elements takes in all. */
  function CallSteps(n: nat): nat {
    if n <= 1 then 1 else 3 + CallSteps(n / 2) + CallSteps(n - n / 2 - 1)
  }

  lemma {:induction false} CallStepsLinear(n: nat)
    ensures CallSteps(n) <= 4 * n + 1
  {
    if n > 1 {
      CallStepsLinear(n / 2);
      CallStepsLinear(n - n / 2 - 1);
    }
  }

  /** Those still to come. */
  function Remaining(job: Job): int {
    match job
    case Start(lo, hi) => if lo <= hi then CallSteps(hi - lo) else 0
    case Partitioning(lo, _, hi) => if lo <= hi then CallSteps(hi - lo) - 1 else 0
    case Fork(_, _, _, left, right) => 1 + Remaining(left) + Remaining(right)
    case Done(_, _) => 0
  }

  lemma {:induction false} RemainingPositive(a: seq<int>, job: Job, lo: nat, hi: nat)
    requires Inv(a, job, lo, hi)
    ensures Remaining(job) >= 0 && (Remaining(job) == 0 <==> job.Done?)
  {
    if job.Fork? {
      RemainingPositive(a, job.left, lo, job.mid);
      RemainingPositive(a, job.right, job.mid + 1, hi);
    }
  }

  predicate IsSwap(act: Action) {
    match act
    case Swap(_, _) => true
    case InLeft(x) => IsSwap(x)
    case InRight(y) => IsSwap(y)
    case _ => false
  }

  /** Each step that is not a swap leaves exactly one fewer. */
  lemma {:induction false} StepCounts(a: seq<int>, job: Job, act: Action, lo: nat, hi: nat)
    requires Inv(a, job, lo, hi) && Enabled(a, job, act)
    ensures Remaining(Do(a, job, act).1) == Remaining(job) - if IsSwap(act) then 0 else 1
    decreases act
  {
    match act
    case InLeft(x) => StepCounts(a, job.left, x, lo, job.mid);
    case InRight(y) => StepCounts(a, job.right, y, job.mid + 1, hi);
    case _ =>
  }

  function NonSwaps(acts: seq<Action>): nat {
    if acts == [] then 0 else (if IsSwap(acts[0]) then 0 else 1) + NonSwaps(acts[1..])
  }

  lemma {:induction false} RunCounts(a: seq<int>, job: Job, acts: seq<Action>, lo: nat, hi: nat)
    requires Inv(a, job, lo, hi) && Legal(a, job, acts)
    ensures NonSwaps(acts) + Remaining(Exec(a, job, acts).1) == Remaining(job)
    decreases |acts|
  {
    if acts != [] {
      StepCounts(a, job, acts[0], lo, hi);
      InvStep(a, job, acts[0], lo, hi);
      RunCounts(Do(a, job, acts[0]).0, Do(a, job, acts[0]).1, acts[1..], lo, hi);
    }
  }

  /** Any run, complete or not, makes at most 4n + 1 steps other than swaps, and one has returned
      exactly when it has made them all. */
  lemma StepsBounded(a: seq<int>, lo: nat, hi: nat, acts: seq<Action>)
    requires lo <= hi <= |a| && Legal(a, Start(lo, hi), acts)
    ensures NonSwaps(acts) <= CallSteps(hi - lo) <= 4 * (hi - lo) + 1
    ensures Exec(a, Start(lo, hi), acts).1.Done? <==> NonSwaps(acts) == CallSteps(hi - lo)
  {
    RunCounts(a, Start(lo, hi), acts, lo, hi);
    RunKeeps(a, Start(lo, hi), acts, lo, hi);
    RemainingPositive(Exec(a, Start(lo, hi), acts).0, Exec(a, Start(lo, hi), acts).1, lo, hi);
    CallStepsLinear(hi - lo);
  }

  lemma {:induction false} RunThen(a: seq<int>, job: Job, acts: seq<Action>, more: seq<Action>)
    requires Legal(a, job, acts) && Legal(Exec(a, job, acts).0, Exec(a, job, acts).1, more)
    ensures Legal(a, job, acts + more)
    ensures Exec(a, job, acts + more) == Exec(Exec(a, job, acts).0, Exec(a, job, acts).1, more)
    decreases |acts|
  {
    if acts == [] {
      assert acts + more == more;
    } else {
      assert (acts + more)[1..] == acts[1..] + more;
      RunThen(Do(a, job, acts[0]).0, Do(a, job, acts[0]).1, acts[1..], more);
    }
  }

  /** A run of one of the two calls is a run of both. */
  lemma {:induction false} LiftLeft(a: seq<int>, job: Job, acts: seq<Action>) returns (lifted: seq<Action>)
    requires job.Fork? && Legal(a, job.left, acts)
    ensures Legal(a, job, lifted)
    ensures Exec(a, job, lifted).0 == Exec(a, job.left, acts).0
    ensures Exec(a, job, lifted).1 == job.(left := Exec(a, job.left, acts).1)
    decreases |acts|
  {
    if acts == [] {
      lifted := [];
    } else {
      var (b, l) := Do(a, job.left, acts[0]);
      var rest := LiftLeft(b, job.(left := l), acts[1..]);
      lifted := [InLeft(acts[0])] + rest;
      assert lifted[1..] == rest;
    }
  }

  lemma {:induction false} LiftRight(a: seq<int>, job: Job, acts: seq<Action>) returns (lifted: seq<Action>)
    requires job.Fork? && Legal(a, job.right, acts)
    ensures Legal(a, job, lifted)
    ensures Exec(a, job, lifted).0 == Exec(a, job.right, acts).0
    ensures Exec(a, job, lifted).1 == job.(right := Exec(a, job.right, acts).1)
    decreases |acts|
  {
    if acts == [] {
      lifted := [];
    } else {
      var (b, r) := Do(a, job.right, acts[0]);
      var rest := LiftRight(b, job.(right := r), acts[1..]);
      lifted := [InRight(acts[0])] + rest;
      assert lifted[1..] == rest;
    }
  }

  lemma {:induction false} LeastIn(a: seq<int>, from: nat, hi: nat) returns (k: nat)
    requires from < hi <= |a|
    ensures from <= k < hi && forall i :: from <= i < hi ==> a[k] <= a[i]
    decreases hi - from
  {
    k := from;
    if from + 1 < hi {
      var j := LeastIn(a, from + 1, hi);
      if a[j] < a[from] { k := j; }
    }
  }

  /** The leading part up to `done` is sorted and nothing after it is smaller. */
  ghost predicate Leading(a: seq<int>, lo: nat, done: nat, hi: nat) {
    lo <= done <= hi <= |a| && forall i, j :: lo <= i < done && i < j < hi ==> a[i] <= a[j]
  }

  lemma LeadingGrows(a: seq<int>, lo: nat, done: nat, hi: nat, k: nat)
    requires Leading(a, lo, done, hi) && done <= k < hi && forall i :: done <= i < hi ==> a[k] <= a[i]
    ensures Leading(a[done := a[k]][k := a[done]], lo, done + 1, hi)
  {
  }

  /** Swaps alone can always bring a range to a partition: one element after the other, in order. */
  lemma {:induction false} SwapsPartition(a: seq<int>, job: Job, done: nat) returns (acts: seq<Action>)
    requires job.Partitioning? && job.lo <= job.mid < job.hi && Leading(a, job.lo, done, job.hi)
    ensures Legal(a, job, acts) && Exec(a, job, acts).1 == job
    ensures |Exec(a, job, acts).0| == |a| && PartitionedAt(Exec(a, job, acts).0, job.lo, job.mid, job.hi)
    decreases job.hi - done
  {
    if done == job.hi {
      acts := [];
    } else {
      var k := LeastIn(a, done, job.hi);
      LeadingGrows(a, job.lo, done, job.hi, k);
      var rest := SwapsPartition(a[done := a[k]][k := a[done]], job, done + 1);
      acts := [Swap(done, k)] + rest;
      assert acts[1..] == rest;
    }
  }

  /** A call that has not returned can always go on: some steps leave fewer to come. */
  lemma {:induction false} GoesOn(a: seq<int>, job: Job, lo: nat, hi: nat) returns (acts: seq<Action>)
    requires Inv(a, job, lo, hi) && !job.Done?
    ensures Legal(a, job, acts) && NonSwaps(acts) >= 1
    decreases job
  {
    match job
    case Start(_, _) => acts := [Begin];
    case Partitioning(_, _, _) => acts := DividesAt(a, job, lo, hi);
    case Fork(_, _, _, _, _) =>
      if !job.left.Done? {
        var x := GoesOn(a, job.left, lo, job.mid);
        acts := LiftLeft(a, job, x);
        LeftProgress(a, job, x, acts, lo, hi);
      } else if !job.right.Done? {
        var y := GoesOn(a, job.right, job.mid + 1, hi);
        acts := LiftRight(a, job, y);
        RightProgress(a, job, y, acts, lo, hi);
      } else {
        acts := [Join];
      }
  }

  lemma DividesAt(a: seq<int>, job: Job, lo: nat, hi: nat) returns (acts: seq<Action>)
    requires Inv(a, job, lo, hi) && job.Partitioning?
    ensures Legal(a, job, acts) && NonSwaps(acts) >= 1
  {
    var swaps := SwapsPartition(a, job, lo);
    var b := Exec(a, job, swaps).0;
    var last := [Divide];
    assert Legal(b, job, last);
    RunThen(a, job, swaps, last);
    acts := swaps + last;
    NonSwapsAdds(swaps, last);
  }

  lemma {:induction false} NonSwapsAdds(x: seq<Action>, y: seq<Action>)
    ensures NonSwaps(x + y) == NonSwaps(x) + NonSwaps(y)
  {
    if x == [] {
      assert x + y == y;
    } else {
      assert (x + y)[1..] == x[1..] + y;
      NonSwapsAdds(x[1..], y);
    }
  }

  /** Counted by what remains, a lifted run makes as many steps as the run of the one call. */
  lemma LeftProgress(a: seq<int>, job: Job, x: seq<Action>, acts: seq<Action>, lo: nat, hi: nat)
    requires Inv(a, job, lo, hi) && job.Fork? && Legal(a, job.left, x) && Legal(a, job, acts)
    requires Exec(a, job, acts).1 == job.(left := Exec(a, job.left, x).1)
    ensures NonSwaps(acts) == NonSwaps(x)
  {
    RunCounts(a, job.left, x, lo, job.mid);
    RunCounts(a, job, acts, lo, hi);
  }

  lemma RightProgress(a: seq<int>, job: Job, y: seq<Action>, acts: seq<Action>, lo: nat, hi: nat)
    requires Inv(a, job, lo, hi) && job.Fork? && Legal(a, job.right, y) && Legal(a, job, acts)
    requires Exec(a, job, acts).1 == job.(right := Exec(a, job.right, y).1)
    ensures NonSwaps(acts) == NonSwaps(y)
  {
    RunCounts(a, job.right, y, job.mid + 1, hi);
    RunCounts(a, job, acts, lo, hi);
  }

  lemma {:induction false} Finishes(a: seq<int>, job: Job, lo: nat, hi: nat) returns (acts: seq<Action>)
    requires Inv(a, job, lo, hi)
    ensures Legal(a, job, acts) && Exec(a, job, acts).1.Done?
    decreases Remaining(job)
  {
    RemainingPositive(a, job, lo, hi);
    if job.Done? {
      acts := [];
    } else {
      var some := GoesOn(a, job, lo, hi);
      RunKeeps(a, job, some, lo, hi);
      RunCounts(a, job, some, lo, hi);
      var (b, next) := Exec(a, job, some);
      RemainingPositive(b, next, lo, hi);
      var rest := Finishes(b, next, lo, hi);
      RunThen(a, job, some, rest);
      acts := some + rest;
    }
  }

  /** No interleaving gets stuck: every run can be continued until the outermost call has returned,
      with the range sorted. */
  lemma EveryRunCanFinish(a: seq<int>, lo: nat, hi: nat, acts: seq<Action>) returns (more: seq<Action>)
    requires lo <= hi <= |a| && Legal(a, Start(lo, hi), acts)
    ensures Legal(a, Start(lo, hi), acts + more) && Exec(a, Start(lo, hi), acts + more).1.Done?
    ensures Rearranged(a, Exec(a, Start(lo, hi), acts + more).0, lo, hi)
    ensures Sorted(Exec(a, Start(lo, hi), acts + more).0, lo, hi)
  {
    RunKeeps(a, Start(lo, hi), acts, lo, hi);
    more := Finishes(Exec(a, Start(lo, hi), acts).0, Exec(a, Start(lo, hi), acts).1, lo, hi);
    RunThen(a, Start(lo, hi), acts, more);
    EveryInterleavingSorts(a, lo, hi, acts + more);
  }

  // ----- Depth -----

  function Depth(job: Job): nat {
    if job.Fork? then
      1 + (if Depth(job.left) >= Depth(job.right) then Depth(job.left) else Depth(job.right))
    else 1
  }

  /** Halving n until at most one element is left. */
  function Halvings(n: nat): nat {
    if n <= 1 then 0 else 1 + Halvings(n / 2)
  }

  function Pow2(k: nat): nat {
    if k == 0 then 1 else 2 * Pow2(k - 1)
  }

  lemma {:induction false} HalvingsLog(n: nat)
    requires n >= 1
    ensures Pow2(Halvings(n)) <= n < 2 * Pow2(Halvings(n))
  {
    if n > 1 { HalvingsLog(n / 2); }
  }

  lemma {:induction false} HalvingsMonotone(m: nat, n: nat)
    requires m <= n
    ensures Halvings(m) <= Halvings(n)
  {
    if m > 1 { HalvingsMonotone(m / 2, n / 2); }
  }

  lemma {:induction false} DepthBound(a: seq<int>, job: Job, lo: nat, hi: nat)
    requires Inv(a, job, lo, hi)
    ensures Depth(job) <= 1 + Halvings(hi - lo)
  {
    if job.Fork? {
      DepthBound(a, job.left, lo, job.mid);
      DepthBound(a, job.right, job.mid + 1, hi);
      HalvingsMonotone(hi - (job.mid + 1), (hi - lo) / 2);
    }
  }

  /** At every moment of every run the calls are nested at most 1 + log2 of the length deep. */
  lemma LogarithmicDepth(a: seq<int>, lo: nat, hi: nat, acts: seq<Action>)
    requires lo < hi <= |a| && Legal(a, Start(lo, hi), acts)
    ensures Pow2(Depth(Exec(a, Start(lo, hi), acts).1) - 1) <= hi - lo
  {
    RunKeeps(a, Start(lo, hi), acts, lo, hi);
    var job := Exec(a, Start(lo, hi), acts).1;
    DepthBound(Exec(a, Start(lo, hi), acts).0, job, lo, hi);
    HalvingsLog(hi - lo);
    Pow2Monotone(Depth(job) - 1, Halvings(hi - lo));
  }

  lemma {:induction false} Pow2Monotone(j: nat, k: nat)
    requires j <= k
    ensures Pow2(j) <= Pow2(k)
  {
    if j < k { Pow2Monotone(j, k - 1); }
  }
}
