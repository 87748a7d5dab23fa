/** The sorts of src/9_thread_pool.cpp: partition at the middle with `nth_element`, then sort both
    sides, one after the other or on a forked thread.

    `nth_element` has the contract of section 28.7.2 of ISO/IEC 14882:2017.  The interleavings are
    those of a tree of calls: any call that is partitioning may swap two elements of its own range
    at any time, until the partition is reached; then its two recursive calls run side by side. */
module ParallelSort {

  ghost predicate Sorted(a: seq<int>, lo: nat, hi: nat)
    requires hi <= |a|
  {
    forall i, j :: lo <= i < j < hi ==> a[i] <= a[j]
  }

  /** What `nth_element` establishes. */
  ghost predicate PartitionedAt(a: seq<int>, lo: nat, mid: nat, hi: nat)
    requires mid < |a| && hi <= |a|
  {
    && (forall i :: lo <= i < mid ==> a[i] <= a[mid])
    && (forall i :: mid < i < hi ==> a[mid] <= a[i])
  }

  /** b differs from a by a rearrangement of [lo, hi) only. */
  ghost predicate Rearranged(a: seq<int>, b: seq<int>, lo: nat, hi: nat) {
    && lo <= hi <= |a| == |b|
    && (forall i :: 0 <= i < |a| && (i < lo || hi <= i) ==> a[i] == b[i])
    && multiset(a[lo..hi]) == multiset(b[lo..hi])
  }

  lemma RearrangedTrans(a: seq<int>, b: seq<int>, c: seq<int>, lo: nat, hi: nat)
    requires Rearranged(a, b, lo, hi) && Rearranged(b, c, lo, hi)
    ensures Rearranged(a, c, lo, hi)
  {
  }

  lemma RearrangedWider(a: seq<int>, b: seq<int>, lo: nat, hi: nat, lo': nat, hi': nat)
    requires Rearranged(a, b, lo, hi) && lo' <= lo && hi <= hi' <= |a|
    ensures Rearranged(a, b, lo', hi')
  {
    assert a[lo'..lo] == b[lo'..lo] && a[hi..hi'] == b[hi..hi'];
    assert a[lo'..hi'] == a[lo'..lo] + a[lo..hi] + a[hi..hi'];
    assert b[lo'..hi'] == b[lo'..lo] + b[lo..hi] + b[hi..hi'];
  }

  lemma RearrangedSwap(a: seq<int>, lo: nat, hi: nat, i: nat, j: nat)
    requires lo <= i < hi <= |a| && lo <= j < hi
    ensures Rearranged(a, a[i := a[j]][j := a[i]], lo, hi)
  {
    var b := a[i := a[j]][j := a[i]];
    var x, y := a[lo..hi], b[lo..hi];
    assert y == x[i - lo := x[j - lo]][j - lo := x[i - lo]];
    SwapMultiset(x, i - lo, j - lo);
  }

  lemma SwapMultiset(x: seq<int>, i: nat, j: nat)
    requires i < |x| && j < |x|
    ensures multiset(x[i := x[j]][j := x[i]]) == multiset(x)
  {
  }

  /** A bound on all elements of a range survives its rearrangement. */
  lemma UpperKept(a: seq<int>, b: seq<int>, lo: nat, hi: nat, most: int)
    requires Rearranged(a, b, lo, hi) && forall i :: lo <= i < hi ==> a[i] <= most
    ensures forall i :: lo <= i < hi ==> b[i] <= most
  {
    forall i | lo <= i < hi ensures b[i] <= most {
      assert b[i] == b[lo..hi][i - lo] && b[i] in multiset(a[lo..hi]);
      assert b[i] in a[lo..hi];
    }
  }

  lemma LowerKept(a: seq<int>, b: seq<int>, lo: nat, hi: nat, least: int)
    requires Rearranged(a, b, lo, hi) && forall i :: lo <= i < hi ==> least <= a[i]
    ensures forall i :: lo <= i < hi ==> least <= b[i]
  {
    forall i | lo <= i < hi ensures least <= b[i] {
      assert b[i] == b[lo..hi][i - lo] && b[i] in multiset(a[lo..hi]);
      assert b[i] in a[lo..hi];
    }
  }

  /** Rearranging either side of a partitioned range keeps the partition. */
  lemma LeftKeepsPartition(a: seq<int>, b: seq<int>, lo: nat, mid: nat, hi: nat)
    requires lo <= mid < hi <= |a| && PartitionedAt(a, lo, mid, hi) && Rearranged(a, b, lo, mid)
    ensures PartitionedAt(b, lo, mid, hi)
  {
    UpperKept(a, b, lo, mid, a[mid]);
  }

  lemma RightKeepsPartition(a: seq<int>, b: seq<int>, lo: nat, mid: nat, hi: nat)
    requires lo <= mid < hi <= |a| && PartitionedAt(a, lo, mid, hi) && Rearranged(a, b, mid + 1, hi)
    ensures PartitionedAt(b, lo, mid, hi)
  {
    LowerKept(a, b, mid + 1, hi, a[mid]);
  }

  /** The first of a sorted sequence bounds every element it has. */
  lemma HeadIsLeast(a: seq<int>, b: seq<int>)
    requires Sorted(a, 0, |a|) && multiset(a) == multiset(b) && a != [] && b != []
    ensures a[0] <= b[0]
  {
    assert b[0] in multiset(a);
    assert b[0] in a;
  }

  lemma TailMultiset(a: seq<int>)
    requires a != []
    ensures multiset(a[1..]) == multiset(a) - multiset{a[0]}
  {
    assert a == [a[0]] + a[1..];
  }

  /** A sorted arrangement of the same elements is unique. */
  lemma {:induction false} SortedUnique(a: seq<int>, b: seq<int>)
    requires Sorted(a, 0, |a|) && Sorted(b, 0, |b|) && multiset(a) == multiset(b)
    ensures a == b
  {
    assert |a| == |multiset(a)| == |multiset(b)| == |b|;
    if a != [] {
      HeadIsLeast(a, b);
      HeadIsLeast(b, a);
      TailMultiset(a);
      TailMultiset(b);
      SortedUnique(a[1..], b[1..]);
    }
  }

  // ----- Every interleaving of the parallel sort -----

  datatype Job =
    | Start(lo: nat, hi: nat)
    | Partitioning(lo: nat, mid: nat, hi: nat)
    | Fork(lo: nat, mid: nat, hi: nat, left: Job, right: Job)
    | Done(lo: nat, hi: nat)

  /** A step somewhere in the tree of calls. */
  datatype Action = Begin | Swap(i: nat, j: nat) | Divide | Join | InLeft(x: Action) | InRight(y: Action)

  ghost predicate Enabled(a: seq<int>, job: Job, act: Action) {
    match act
    case Begin => job.Start?
    case Swap(i, j) => job.Partitioning? && job.lo <= i < job.hi && job.lo <= j < job.hi && job.hi <= |a|
    case Divide => job.Partitioning? && job.mid < job.hi <= |a| && PartitionedAt(a, job.lo, job.mid, job.hi)
    case Join => job.Fork? && job.left.Done? && job.right.Done?
    case InLeft(x) => job.Fork? && Enabled(a, job.left, x)
    case InRight(y) => job.Fork? && Enabled(a, job.right, y)
  }

  ghost function Do(a: seq<int>, job: Job, act: Action): (seq<int>, Job)
    requires Enabled(a, job, act)
  {
    match act
    case Begin =>
      (a, if job.hi - job.lo <= 1 then Done(job.lo, job.hi)
          else Partitioning(job.lo, job.lo + (job.hi - job.lo) / 2, job.hi))
    case Swap(i, j) => (a[i := a[j]][j := a[i]], job)
    case Divide => (a, Fork(job.lo, job.mid, job.hi, Start(job.lo, job.mid), Start(job.mid + 1, job.hi)))
    case Join => (a, Done(job.lo, job.hi))
    case InLeft(x) => var (b, l) := Do(a, job.left, x); (b, job.(left := l))
    case InRight(y) => var (b, r) := Do(a, job.right, y); (b, job.(right := r))
  }

  ghost predicate Inv(a: seq<int>, job: Job, lo: nat, hi: nat) {
    && job.lo == lo && job.hi == hi && lo <= hi <= |a|
    && match job
       case Start(_, _) => true
       case Partitioning(_, mid, _) => hi - lo > 1 && mid == lo + (hi - lo) / 2
       case Fork(_, mid, _, left, right) =>
         && hi - lo > 1 && mid == lo + (hi - lo) / 2
         && PartitionedAt(a, lo, mid, hi)
         && Inv(a, left, lo, mid) && Inv(a, right, mid + 1, hi)
       case Done(_, _) => Sorted(a, lo, hi)
  }

  /** The state of a call depends on its own range only. */
  lemma {:induction false} Frame(a: seq<int>, b: seq<int>, job: Job, lo: nat, hi: nat)
    requires Inv(a, job, lo, hi) && |a| == |b| && forall i :: lo <= i < hi ==> a[i] == b[i]
    ensures Inv(b, job, lo, hi)
  {
    if job.Fork? {
      Frame(a, b, job.left, lo, job.mid);
      Frame(a, b, job.right, job.mid + 1, hi);
    }
  }

  /** Rearranging one side of mid rearranges the whole range and keeps the element at mid. */
  lemma OneSide(a: seq<int>, b: seq<int>, lo: nat, mid: nat, hi: nat)
    requires lo <= mid < hi <= |a| && (Rearranged(a, b, lo, mid) || Rearranged(a, b, mid + 1, hi))
    ensures Rearranged(a, b, lo, hi) && a[mid] == b[mid]
  {
    if Rearranged(a, b, lo, mid) {
      RearrangedWider(a, b, lo, mid, lo, hi);
    } else {
      RearrangedWider(a, b, mid + 1, hi, lo, hi);
    }
  }

  /** A step of a call rearranges its range, and leaves every pivot already placed alone. */
  lemma {:induction false} StepInRange(a: seq<int>, job: Job, act: Action, lo: nat, hi: nat)
    requires Inv(a, job, lo, hi) && Enabled(a, job, act)
    ensures Rearranged(a, Do(a, job, act).0, lo, hi)
    ensures job.Fork? ==> Do(a, job, act).0[job.mid] == a[job.mid]
    decreases act, 0
  {
    match act
    case Swap(i, j) => RearrangedSwap(a, lo, hi, i, j);
    case InLeft(x) => LeftInRange(a, job.left, x, lo, job.mid, hi);
    case InRight(y) => RightInRange(a, job.right, y, lo, job.mid, hi);
    case _ =>
  }

  lemma {:induction false} LeftInRange(a: seq<int>, left: Job, x: Action, lo: nat, mid: nat, hi: nat)
    requires Inv(a, left, lo, mid) && Enabled(a, left, x) && mid < hi <= |a|
    ensures Rearranged(a, Do(a, left, x).0, lo, hi) && Do(a, left, x).0[mid] == a[mid]
    decreases x, 1
  {
    StepInRange(a, left, x, lo, mid);
    OneSide(a, Do(a, left, x).0, lo, mid, hi);
  }

  lemma {:induction false} RightInRange(a: seq<int>, right: Job, y: Action, lo: nat, mid: nat, hi: nat)
    requires Inv(a, right, mid + 1, hi) && Enabled(a, right, y) && lo <= mid
    ensures Rearranged(a, Do(a, right, y).0, lo, hi) && Do(a, right, y).0[mid] == a[mid]
    decreases y, 1
  {
    StepInRange(a, right, y, mid + 1, hi);
    OneSide(a, Do(a, right, y).0, lo, mid, hi);
  }

  lemma {:induction false} InvStep(a: seq<int>, job: Job, act: Action, lo: nat, hi: nat)
    requires Inv(a, job, lo, hi) && Enabled(a, job, act)
    ensures Inv(Do(a, job, act).0, Do(a, job, act).1, lo, hi)
    decreases act
  {
    match act
    case InLeft(x) =>
      InvStep(a, job.left, x, lo, job.mid);
      LeftFrames(a, job, x, lo, hi);
    case InRight(y) =>
      InvStep(a, job.right, y, job.mid + 1, hi);
      RightFrames(a, job, y, lo, hi);
    case _ => OwnStep(a, job, act, lo, hi);
  }

  lemma OwnStep(a: seq<int>, job: Job, act: Action, lo: nat, hi: nat)
    requires Inv(a, job, lo, hi) && Enabled(a, job, act) && !act.InLeft? && !act.InRight?
    ensures Inv(Do(a, job, act).0, Do(a, job, act).1, lo, hi)
  {
    if act == Join { SidesSorted(a, lo, job.mid, hi); }
  }

  /** A partitioned range with both sides sorted is sorted. */
  lemma SidesSorted(a: seq<int>, lo: nat, mid: nat, hi: nat)
    requires lo <= mid < hi <= |a| && PartitionedAt(a, lo, mid, hi)
    requires Sorted(a, lo, mid) && Sorted(a, mid + 1, hi)
    ensures Sorted(a, lo, hi)
  {
    forall i, j | lo <= i < j < hi ensures a[i] <= a[j] {
      if i < mid && mid < j { assert a[i] <= a[mid] <= a[j]; }
    }
  }

  /** A step of a call changes nothing outside its range. */
  lemma StepOutside(a: seq<int>, job: Job, act: Action, lo: nat, hi: nat)
    requires Inv(a, job, lo, hi) && Enabled(a, job, act)
    ensures |Do(a, job, act).0| == |a|
    ensures forall i :: 0 <= i < |a| && (i < lo || hi <= i) ==> a[i] == Do(a, job, act).0[i]
  {
    StepInRange(a, job, act, lo, hi);
  }

  /** A step on one side of a partitioned range keeps the partition and everything outside that side. */
  lemma LeftStays(a: seq<int>, left: Job, x: Action, lo: nat, mid: nat, hi: nat)
    requires Inv(a, left, lo, mid) && Enabled(a, left, x) && mid < hi <= |a| && PartitionedAt(a, lo, mid, hi)
    ensures var b := Do(a, left, x).0;
      && |b| == |a| && PartitionedAt(b, lo, mid, hi)
      && forall i :: 0 <= i < |a| && (i < lo || mid <= i) ==> a[i] == b[i]
  {
    StepInRange(a, left, x, lo, mid);
    LeftKeepsPartition(a, Do(a, left, x).0, lo, mid, hi);
  }

  lemma RightStays(a: seq<int>, right: Job, y: Action, lo: nat, mid: nat, hi: nat)
    requires Inv(a, right, mid + 1, hi) && Enabled(a, right, y) && lo <= mid && PartitionedAt(a, lo, mid, hi)
    ensures var b := Do(a, right, y).0;
      && |b| == |a| && PartitionedAt(b, lo, mid, hi)
      && forall i :: 0 <= i < |a| && (i < mid + 1 || hi <= i) ==> a[i] == b[i]
  {
    StepInRange(a, right, y, mid + 1, hi);
    RightKeepsPartition(a, Do(a, right, y).0, lo, mid, hi);
  }

  /** A step of the left call disturbs neither the partition nor the right call. */
  lemma LeftFrames(a: seq<int>, job: Job, x: Action, lo: nat, hi: nat)
    requires Inv(a, job, lo, hi) && Enabled(a, job, InLeft(x))
    ensures var b := Do(a, job.left, x).0;
      |b| == |a| && PartitionedAt(b, lo, job.mid, hi) && Inv(b, job.right, job.mid + 1, hi)
  {
    LeftStays(a, job.left, x, lo, job.mid, hi);
    Frame(a, Do(a, job.left, x).0, job.right, job.mid + 1, hi);
  }

  lemma RightFrames(a: seq<int>, job: Job, y: Action, lo: nat, hi: nat)
    requires Inv(a, job, lo, hi) && Enabled(a, job, InRight(y))
    ensures var b := Do(a, job.right, y).0;
      |b| == |a| && PartitionedAt(b, lo, job.mid, hi) && Inv(b, job.left, lo, job.mid)
  {
    RightStays(a, job.right, y, lo, job.mid, hi);
    Frame(a, Do(a, job.right, y).0, job.left, lo, job.mid);
  }

  ghost predicate Legal(a: seq<int>, job: Job, acts: seq<Action>)
    decreases |acts|
  {
    acts == [] || (Enabled(a, job, acts[0]) && Legal(Do(a, job, acts[0]).0, Do(a, job, acts[0]).1, acts[1..]))
  }

  ghost function Exec(a: seq<int>, job: Job, acts: seq<Action>): (seq<int>, Job)
    requires Legal(a, job, acts)
    decreases |acts|
  {
    if acts == [] then (a, job) else Exec(Do(a, job, acts[0]).0, Do(a, job, acts[0]).1, acts[1..])
  }

  lemma {:induction false} RunKeeps(a: seq<int>, job: Job, acts: seq<Action>, lo: nat, hi: nat)
    requires Inv(a, job, lo, hi) && Legal(a, job, acts)
    ensures Inv(Exec(a, job, acts).0, Exec(a, job, acts).1, lo, hi)
    ensures Rearranged(a, Exec(a, job, acts).0, lo, hi)
    decreases |acts|
  {
    if acts != [] {
      var (b, job') := Do(a, job, acts[0]);
      InvStep(a, job, acts[0], lo, hi);
      StepInRange(a, job, acts[0], lo, hi);
      RunKeeps(b, job', acts[1..], lo, hi);
      RearrangedTrans(a, b, Exec(b, job', acts[1..]).0, lo, hi);
    }
  }

  /** Whenever the outermost call has returned, under any interleaving of the forked and inline
      calls, its range is sorted and rearranged, and everything around it is untouched. */
  lemma EveryInterleavingSorts(a: seq<int>, lo: nat, hi: nat, acts: seq<Action>)
    requires lo <= hi <= |a| && Legal(a, Start(lo, hi), acts) && Exec(a, Start(lo, hi), acts).1.Done?
    ensures Rearranged(a, Exec(a, Start(lo, hi), acts).0, lo, hi)
    ensures Sorted(Exec(a, Start(lo, hi), acts).0, lo, hi)
  {
    RunKeeps(a, Start(lo, hi), acts, lo, hi);
  }

  /** Any two complete runs end with the same array; one call after the other is one of them. */
  lemma SameResult(a: seq<int>, acts: seq<Action>, acts': seq<Action>)
    requires Legal(a, Start(0, |a|), acts) && Exec(a, Start(0, |a|), acts).1.Done?
    requires Legal(a, Start(0, |a|), acts') && Exec(a, Start(0, |a|), acts').1.Done?
    ensures Exec(a, Start(0, |a|), acts).0 == Exec(a, Start(0, |a|), acts').0
  {
    EveryInterleavingSorts(a, 0, |a|, acts);
    EveryInterleavingSorts(a, 0, |a|, acts');
    var b, c := Exec(a, Start(0, |a|), acts).0, Exec(a, Start(0, |a|), acts').0;
    assert a[0..|a|] == a && b[0..|b|] == b && c[0..|c|] == c;
    SortedUnique(b, c);
  }

  ghost predicate Agree(a: seq<int>, b: seq<int>, lo: nat, hi: nat) {
    hi <= |a| == |b| && forall i :: lo <= i < hi ==> a[i] == b[i]
  }

  /** What a call can do next, and what that does to its range, depends on its range only. */
  lemma {:induction false} Local(a: seq<int>, b: seq<int>, job: Job, act: Action, lo: nat, hi: nat)
    requires Inv(a, job, lo, hi) && Enabled(a, job, act) && Agree(a, b, lo, hi)
    ensures Enabled(b, job, act) && Do(b, job, act).1 == Do(a, job, act).1
    ensures Agree(Do(a, job, act).0, Do(b, job, act).0, lo, hi)
    decreases act, 0
  {
    match act
    case InLeft(x) => LocalLeft(a, b, job, x, lo, hi);
    case InRight(y) => LocalRight(a, b, job, y, lo, hi);
    case _ =>
  }

  lemma {:induction false} LocalLeft(a: seq<int>, b: seq<int>, job: Job, x: Action, lo: nat, hi: nat)
    requires Inv(a, job, lo, hi) && Enabled(a, job, InLeft(x)) && Agree(a, b, lo, hi)
    ensures Enabled(b, job, InLeft(x)) && Do(b, job, InLeft(x)).1 == Do(a, job, InLeft(x)).1
    ensures Agree(Do(a, job, InLeft(x)).0, Do(b, job, InLeft(x)).0, lo, hi)
    decreases x, 1
  {
    Local(a, b, job.left, x, lo, job.mid);
    Frame(a, b, job.left, lo, job.mid);
    StepOutside(a, job.left, x, lo, job.mid);
    StepOutside(b, job.left, x, lo, job.mid);
  }

  lemma {:induction false} LocalRight(a: seq<int>, b: seq<int>, job: Job, y: Action, lo: nat, hi: nat)
    requires Inv(a, job, lo, hi) && Enabled(a, job, InRight(y)) && Agree(a, b, lo, hi)
    ensures Enabled(b, job, InRight(y)) && Do(b, job, InRight(y)).1 == Do(a, job, InRight(y)).1
    ensures Agree(Do(a, job, InRight(y)).0, Do(b, job, InRight(y)).0, lo, hi)
    decreases y, 1
  {
    Local(a, b, job.right, y, job.mid + 1, hi);
    Frame(a, b, job.right, job.mid + 1, hi);
    StepOutside(a, job.right, y, job.mid + 1, hi);
    StepOutside(b, job.right, y, job.mid + 1, hi);
  }

  /** A step of the left call leaves a step of the right call possible, with the same effect. */
  lemma RightAfterLeft(a: seq<int>, job: Job, x: Action, y: Action, lo: nat, hi: nat)
    requires Inv(a, job, lo, hi) && Enabled(a, job, InLeft(x)) && Enabled(a, job, InRight(y))
    ensures var b, c := Do(a, job.left, x).0, Do(a, job.right, y).0;
      && Enabled(b, job.right, y) && Do(b, job.right, y).1 == Do(a, job.right, y).1
      && |b| == |Do(b, job.right, y).0| == |a|
      && Agree(c, Do(b, job.right, y).0, job.mid + 1, hi)
      && (forall i :: 0 <= i < |a| && (i < lo || job.mid <= i) ==> a[i] == b[i])
      && (forall i :: 0 <= i < |a| && (i < job.mid + 1 || hi <= i) ==> b[i] == Do(b, job.right, y).0[i])
  {
    var b := Do(a, job.left, x).0;
    StepOutside(a, job.left, x, lo, job.mid);
    Local(a, b, job.right, y, job.mid + 1, hi);
    Frame(a, b, job.right, job.mid + 1, hi);
    StepOutside(b, job.right, y, job.mid + 1, hi);
  }

  lemma LeftAfterRight(a: seq<int>, job: Job, x: Action, y: Action, lo: nat, hi: nat)
    requires Inv(a, job, lo, hi) && Enabled(a, job, InLeft(x)) && Enabled(a, job, InRight(y))
    ensures var b, c := Do(a, job.left, x).0, Do(a, job.right, y).0;
      && Enabled(c, job.left, x) && Do(c, job.left, x).1 == Do(a, job.left, x).1
      && |c| == |Do(c, job.left, x).0| == |a|
      && Agree(b, Do(c, job.left, x).0, lo, job.mid)
      && (forall i :: 0 <= i < |a| && (i < job.mid + 1 || hi <= i) ==> a[i] == c[i])
      && (forall i :: 0 <= i < |a| && (i < lo || job.mid <= i) ==> c[i] == Do(c, job.left, x).0[i])
  {
    var c := Do(a, job.right, y).0;
    StepOutside(a, job.right, y, job.mid + 1, hi);
    Local(a, c, job.left, x, lo, job.mid);
    Frame(a, c, job.left, lo, job.mid);
    StepOutside(c, job.left, x, lo, job.mid);
  }

  /** The forked and the inline call do not interfere: a step of either leaves the other's step
      possible, and the two steps in either order give the same array and the same calls. */
  lemma CallsCommute(a: seq<int>, job: Job, x: Action, y: Action, lo: nat, hi: nat)
    requires Inv(a, job, lo, hi) && Enabled(a, job, InLeft(x)) && Enabled(a, job, InRight(y))
    ensures var l, r := Do(a, job, InLeft(x)), Do(a, job, InRight(y));
      && Enabled(l.0, l.1, InRight(y)) && Enabled(r.0, r.1, InLeft(x))
      && Do(l.0, l.1, InRight(y)) == Do(r.0, r.1, InLeft(x))
  {
    var b, c := Do(a, job.left, x).0, Do(a, job.right, y).0;
    RightAfterLeft(a, job, x, y, lo, hi);
    LeftAfterRight(a, job, x, y, lo, hi);
    SameArray(a, b, c, Do(b, job.right, y).0, Do(c, job.left, x).0, lo, job.mid, hi);
  }

  /** b and c change the left and the right part of a; d and e change the other part in turn. */
  lemma SameArray(a: seq<int>, b: seq<int>, c: seq<int>, d: seq<int>, e: seq<int>, lo: nat, mid: nat, hi: nat)
    requires lo <= mid < hi <= |a| == |b| == |c| == |d| == |e|
    requires Agree(c, d, mid + 1, hi) && Agree(b, e, lo, mid)
    requires forall i :: 0 <= i < |a| && (i < lo || mid <= i) ==> a[i] == b[i] && c[i] == e[i]
    requires forall i :: 0 <= i < |a| && (i < mid + 1 || hi <= i) ==> a[i] == c[i] && b[i] == d[i]
    ensures d == e
  {
    forall i | 0 <= i < |a| ensures d[i] == e[i] {
      if lo <= i < mid {
        assert b[i] == d[i] && b[i] == e[i];
      } else if mid < i < hi {
        assert c[i] == d[i] && c[i] == e[i];
      } else {
        assert a[i] == b[i] == d[i] && a[i] == c[i] == e[i];
      }
    }
  }

  // ----- In place, one call after the other -----

  /** Moves the elements of [lo, hi) that are below its last one to the front. */
  method Split(a: array<int>, lo: nat, hi: nat) returns (p: nat)
    requires lo < hi <= a.Length
    modifies a
    ensures lo <= p < hi && PartitionedAt(a[..], lo, p, hi)
    ensures Rearranged(old(a[..]), a[..], lo, hi)
  {
    ghost var was := a[..];
    var pivot := a[hi - 1];
    p := lo;
    var i := lo;
    while i < hi - 1
      invariant lo <= p <= i <= hi - 1
      invariant a[hi - 1] == pivot
      invariant forall k :: lo <= k < p ==> a[k] < pivot
      invariant forall k :: p <= k < i ==> pivot <= a[k]
      invariant Rearranged(was, a[..], lo, hi)
    {
      if a[i] < pivot {
        SwapAt(a, p, i, lo, hi, was);
        p := p + 1;
      }
      i := i + 1;
    }
    SwapAt(a, p, hi - 1, lo, hi, was);
  }

  method SwapAt(a: array<int>, i: nat, j: nat, ghost lo: nat, ghost hi: nat, ghost was: seq<int>)
    requires lo <= i < hi <= a.Length && lo <= j < hi && Rearranged(was, a[..], lo, hi)
    modifies a
    ensures a[i] == old(a[j]) && a[j] == old(a[i])
    ensures forall k :: 0 <= k < a.Length && k != i && k != j ==> a[k] == old(a[k])
    ensures Rearranged(was, a[..], lo, hi)
  {
    ghost var s := a[..];
    a[i], a[j] := a[j], a[i];
    assert a[..] == s[i := s[j]][j := s[i]];
    RearrangedSwap(s, lo, hi, i, j);
    RearrangedTrans(was, s, a[..], lo, hi);
  }

  /** Selecting on one side of a pivot already placed selects in the whole range. */
  lemma SelectedLeft(was: seq<int>, mid: seq<int>, now: seq<int>, lo: nat, k: nat, p: nat, hi: nat)
    requires lo <= k < p < hi <= |was| && Rearranged(was, mid, lo, hi) && PartitionedAt(mid, lo, p, hi)
    requires Rearranged(mid, now, lo, p) && PartitionedAt(now, lo, k, p)
    ensures PartitionedAt(now, lo, k, hi) && Rearranged(was, now, lo, hi)
  {
    LeftKeepsPartition(mid, now, lo, p, hi);
    RearrangedWider(mid, now, lo, p, lo, hi);
    RearrangedTrans(was, mid, now, lo, hi);
  }

  lemma SelectedRight(was: seq<int>, mid: seq<int>, now: seq<int>, lo: nat, p: nat, k: nat, hi: nat)
    requires lo <= p < k < hi <= |was| && Rearranged(was, mid, lo, hi) && PartitionedAt(mid, lo, p, hi)
    requires Rearranged(mid, now, p + 1, hi) && PartitionedAt(now, p + 1, k, hi)
    ensures PartitionedAt(now, lo, k, hi) && Rearranged(was, now, lo, hi)
  {
    RightKeepsPartition(mid, now, lo, p, hi);
    RearrangedWider(mid, now, p + 1, hi, lo, hi);
    RearrangedTrans(was, mid, now, lo, hi);
  }

  /** A `nth_element` by quickselect. */
  method NthElement(a: array<int>, lo: nat, k: nat, hi: nat)
    requires lo <= k < hi <= a.Length
    modifies a
    ensures PartitionedAt(a[..], lo, k, hi)
    ensures Rearranged(old(a[..]), a[..], lo, hi)
    decreases hi - lo
  {
    ghost var was := a[..];
    var p := Split(a, lo, hi);
    ghost var mid := a[..];
    if k < p {
      NthElement(a, lo, k, p);
      SelectedLeft(was, mid, a[..], lo, k, p, hi);
    } else if p < k {
      NthElement(a, p + 1, k, hi);
      SelectedRight(was, mid, a[..], lo, p, k, hi);
    }
  }

  method SingleThreadedSort(a: array<int>, lo: nat, hi: nat)
    requires lo <= hi <= a.Length
    modifies a
    ensures Sorted(a[..], lo, hi)
    ensures Rearranged(old(a[..]), a[..], lo, hi)
    decreases hi - lo
  {
    if hi - lo <= 1 { return; }
    ghost var s0 := a[..];
    var mid := lo + (hi - lo) / 2;
    NthElement(a, lo, mid, hi);
    ghost var s1 := a[..];
    SingleThreadedSort(a, lo, mid);
    ghost var s2 := a[..];
    SingleThreadedSort(a, mid + 1, hi);
    BothSidesSorted(s0, s1, s2, a[..], lo, mid, hi);
  }

  /** A partitioned range whose left and then right side gets sorted is sorted. */
  lemma BothSidesSorted(s0: seq<int>, s1: seq<int>, s2: seq<int>, s3: seq<int>, lo: nat, mid: nat, hi: nat)
    requires lo <= mid < hi <= |s0| && Rearranged(s0, s1, lo, hi) && PartitionedAt(s1, lo, mid, hi)
    requires Rearranged(s1, s2, lo, mid) && Sorted(s2, lo, mid)
    requires Rearranged(s2, s3, mid + 1, hi) && Sorted(s3, mid + 1, hi)
    ensures Sorted(s3, lo, hi) && Rearranged(s0, s3, lo, hi)
  {
    LeftKeepsPartition(s1, s2, lo, mid, hi);
    RightKeepsPartition(s2, s3, lo, mid, hi);
    OneSide(s1, s2, lo, mid, hi);
    OneSide(s2, s3, lo, mid, hi);
    RearrangedTrans(s0, s1, s2, lo, hi);
    RearrangedTrans(s0, s2, s3, lo, hi);
  }

  /** Every complete run of the parallel sort gives what the single-threaded sort gives. */
  method SortsAgree(a: array<int>, ghost acts: seq<Action>)
    requires Legal(a[..], Start(0, a.Length), acts) && Exec(a[..], Start(0, a.Length), acts).1.Done?
    modifies a
    ensures a[..] == Exec(old(a[..]), Start(0, a.Length), acts).0
  {
    ghost var was := a[..];
    EveryInterleavingSorts(was, 0, |was|, acts);
    ghost var b := Exec(was, Start(0, |was|), acts).0;
    SingleThreadedSort(a, 0, a.Length);
    assert a[..][0..a.Length] == a[..] && b[0..|b|] == b;
    SortedUnique(a[..], b);
  }
}
