/** In which orders the threads of one run can merge their results, and when that order shows.

    The barrier decides more than it seems: a thread with fewer arrivals to make has merged before any
    thread with more can.  Within that constraint every order occurs. */
module MergeOrders {
  import opened Common
  import opened PhaseBarrier
  import opened Counters
  import opened ThreadManager
  import opened ThreadRuns
  import opened ThreadTermination

  /** Threads with fewer arrivals come first. */
  ghost predicate ByPlan(plan: seq<nat>, order: seq<Tid>) {
    forall i, j :: 0 <= i < j < |order| && order[i] < |plan| && order[j] < |plan| ==> plan[order[i]] <= plan[order[j]]
  }

  // ----- Every run merges by plan -----

  /** Whoever has merged had no more arrivals to make than a thread that is about to. */
  lemma MergedBefore(s: State, t: Tid, u: Tid)
    requires Inv(s) && Enabled(s, MergeResults(t)) && u < |s.pcs| && HasMerged(s.pcs[u])
    ensures s.plan[u] <= s.plan[t]
  {
    assert ThreadOk(s, t) && ThreadOk(s, u);
  }

  lemma ByPlanStep(s: State, a: Action)
    requires Inv(s) && Enabled(s, a) && ByPlan(s.plan, s.order)
    ensures ByPlan(Do(s, a).plan, Do(s, a).order)
  {
    if a.MergeResults? {
      forall i | 0 <= i < |s.order| ensures s.plan[s.order[i]] <= s.plan[a.t] {
        MergedBefore(s, a.t, s.order[i]);
      }
    }
  }

  lemma {:induction false} ByPlanRun(s: State, acts: seq<Action>)
    requires Inv(s) && ByPlan(s.plan, s.order) && Legal(s, acts)
    ensures ByPlan(s.plan, Exec(s, acts).order)
    decreases |acts|
  {
    if acts != [] {
      InvStep(s, acts[0]);
      ByPlanStep(s, acts[0]);
      ByPlanRun(Do(s, acts[0]), acts[1..]);
    }
  }

  // ----- Every order by plan occurs -----

  /** The merges so far are a beginning of p. */
  ghost predicate Guided(s: State, p: seq<Tid>) {
    && Ordering(s.contrib, p) && ByPlan(s.plan, p)
    && |s.order| <= |p| && s.order == p[..|s.order|]
  }

  /** Asleep, gone, or about to merge. */
  ghost predicate Resting(s: State, t: Tid)
    requires Shaped(s) && t < |s.pcs|
  {
    s.pcs[t].Asleep? || s.pcs[t] == Exited || (s.pcs[t] == Body && s.arrivals[t] == s.plan[t])
  }

  ghost predicate AllRest(s: State)
    requires Shaped(s)
  {
    forall t :: 0 <= t < |s.pcs| ==> Resting(s, t)
  }

  /** Threads that have not merged stand in the rest of p. */
  lemma StillToCome(s: State, p: seq<Tid>, u: Tid)
    requires Inv(s) && Guided(s, p) && u < |s.pcs| && !HasMerged(s.pcs[u])
    ensures |s.order| < |p| && s.plan[p[|s.order|]] <= s.plan[u]
  {
    assert u in p;
    var i :| 0 <= i < |p| && p[i] == u;
    forall k | 0 <= k < |s.order| ensures p[k] != u {
      assert p[k] == s.order[k] && HasMerged(s.pcs[s.order[k]]);
    }
  }

  lemma NotMerged(s: State, p: seq<Tid>)
    requires Inv(s) && Guided(s, p) && |s.order| < |p|
    ensures !HasMerged(s.pcs[p[|s.order|]])
  {
    PrefixLacks(s, p);
  }

  lemma PrefixLacks(s: State, p: seq<Tid>)
    requires Guided(s, p) && |s.order| < |p|
    ensures p[|s.order|] !in s.order
  {
    forall i | 0 <= i < |s.order| ensures s.order[i] != p[|s.order|] {
      assert s.order[i] == p[i];
    }
  }

  /** When all threads rest, nobody who may leave the barrier sleeps. */
  lemma SleepsInPhase(s: State, t: Tid)
    requires Inv(s) && AllRest(s) && t < |s.pcs| && s.pcs[t].Asleep?
    ensures s.pcs[t].cp == s.bar.phase && s.arrivals[t] == s.bar.phase + 1
  {
    assert ThreadOk(s, t);
    forall u | 0 <= u < |s.pcs| ensures s.pcs[u] != Notifying {
      assert Resting(s, u);
    }
  }

  /** The next thread of p is then not asleep: everyone still to come would be, in the same phase. */
  lemma NextIsAwake(s: State, p: seq<Tid>)
    requires Inv(s) && Guided(s, p) && AllRest(s) && |s.order| < |p|
    ensures !s.pcs[p[|s.order|]].Asleep?
  {
    var t := p[|s.order|];
    if s.pcs[t].Asleep? {
      SleepsInPhase(s, t);
      assert ThreadOk(s, t);
      forall u | 0 <= u < |s.pcs| && Live(s.pcs[u]) ensures WaitingIn(s.bar.phase)(s.pcs[u]) {
        assert Resting(s, u) && ThreadOk(s, u);
        StillToCome(s, p, u);
        if s.pcs[u].Asleep? { SleepsInPhase(s, u); }
      }
      AllEntered(s);
    }
  }

  lemma GuidedMerge(s: State, p: seq<Tid>)
    requires Guided(s, p) && |s.order| < |p| && Enabled(s, MergeResults(p[|s.order|]))
    ensures Guided(Do(s, MergeResults(p[|s.order|])), p)
  {
    assert p[..|s.order| + 1] == s.order + [p[|s.order|]];
  }

  /** Some step goes on without leaving p, until all threads are joined. */
  lemma GuidedMove(s: State, p: seq<Tid>) returns (a: Action)
    requires Inv(s) && Guided(s, p) && s.main != Joined
    ensures Enabled(s, a) && !IsSpurious(a) && Guided(Do(s, a), p)
  {
    if t :| 0 <= t < |s.pcs| && !Resting(s, t) {
      a := ThreadCanMove(s, t);
    } else if |s.order| < |p| {
      NotMerged(s, p);
      NextIsAwake(s, p);
      var t := p[|s.order|];
      assert Resting(s, t);
      a := MergeResults(t);
      GuidedMerge(s, p);
    } else {
      AllGone(s, p);
      a := Main;
    }
  }

  lemma AllGone(s: State, p: seq<Tid>)
    requires Inv(s) && Guided(s, p) && AllRest(s) && |s.order| == |p| && s.main != Joined
    ensures Enabled(s, Main)
  {
    forall t | 0 <= t < |s.pcs| ensures s.pcs[t] == Exited {
      assert Resting(s, t);
      if !HasMerged(s.pcs[t]) { StillToCome(s, p, t); }
    }
    assert Where(s.pcs, Counted) == {};
  }

  lemma {:induction false} Realizes(s: State, p: seq<Tid>) returns (acts: seq<Action>)
    requires Inv(s) && Guided(s, p)
    ensures Legal(s, acts) && Exec(s, acts).main == Joined && Exec(s, acts).order == p
    decreases Rank(s)
  {
    if s.main == Joined {
      acts := [];
      AllMergedAt(s);
      WholeOrder(s, p);
    } else {
      var a := GuidedMove(s, p);
      InvStep(s, a);
      Descends(s, a);
      var rest := Realizes(Do(s, a), p);
      acts := [a] + rest;
      assert acts[1..] == rest;
    }
  }

  lemma WholeOrder(s: State, p: seq<Tid>)
    requires Guided(s, p) && Ordering(s.contrib, s.order)
    ensures s.order == p
  {
    if |s.order| < |p| { PrefixLacks(s, p); }
  }

  /** A whole run: legal, and all threads joined. */
  ghost predicate Completes(s0: State, acts: seq<Action>) {
    Legal(s0, acts) && Exec(s0, acts).main == Joined
  }

  /** The merge orders of whole runs are exactly the orders by plan. */
  lemma OrdersExactly(s0: State, p: seq<Tid>)
    requires Init(s0)
    ensures (exists acts :: Completes(s0, acts) && Exec(s0, acts).order == p)
            <==> Ordering(s0.contrib, p) && ByPlan(s0.plan, p)
  {
    InvInit(s0);
    if acts :| Completes(s0, acts) && Exec(s0, acts).order == p {
      AllMerged(s0, acts);
      ByPlanRun(s0, acts);
    }
    if Ordering(s0.contrib, p) && ByPlan(s0.plan, p) {
      var acts := Realizes(s0, p);
      assert Completes(s0, acts);
    }
  }

  // ----- When the order shows -----

  /** t has the counter, and no thread that has it makes fewer arrivals. */
  ghost predicate LeastWith(s: State, name: string, t: Tid)
    requires Shaped(s)
  {
    && t < |s.pcs| && name in s.contrib[t].counters
    && forall v :: 0 <= v < |s.pcs| && name in s.contrib[v].counters ==> s.plan[t] <= s.plan[v]
  }

  ghost predicate LeastAgree(s: State)
    requires Shaped(s)
  {
    forall name, t: Tid, u: Tid :: LeastWith(s, name, t) && LeastWith(s, name, u) ==>
      s.contrib[t].counters[name].flags == s.contrib[u].counters[name].flags
  }

  lemma FirstIsLeast(s: State, p: seq<Tid>, name: string, i: nat)
    requires Shaped(s) && Ordering(s.contrib, p) && ByPlan(s.plan, p) && IsFirst(s.contrib, p, name, i)
    ensures LeastWith(s, name, p[i])
  {
    forall v | 0 <= v < |s.pcs| && name in s.contrib[v].counters ensures s.plan[p[i]] <= s.plan[v] {
      assert v in p;
      var j :| 0 <= j < |p| && p[j] == v;
    }
  }

  lemma LeastIn(plan: seq<nat>, left: set<Tid>, t: Tid) returns (m: Tid)
    requires left != {} && forall u :: u in left ==> u < |plan|
    ensures m in left && forall u :: u in left ==> plan[m] <= plan[u]
    ensures t in left && plan[t] == plan[m] ==> m == t
    decreases |left|
  {
    m :| m in left;
    var rest := left - {m};
    assert forall u :: u in left ==> u == m || u in rest;
    if rest != {} {
      var k := LeastIn(plan, rest, t);
      if plan[k] < plan[m] || (k == t && plan[k] == plan[m]) { m := k; }
    }
  }

  /** An order by plan in which t comes before all others with as many arrivals. */
  lemma OrderFavouring(plan: seq<nat>, left: set<Tid>, t: Tid) returns (order: seq<Tid>)
    requires forall u :: u in left ==> u < |plan|
    ensures forall u :: u in order <==> u in left
    ensures forall i, j :: 0 <= i < j < |order| ==> order[i] != order[j]
    ensures ByPlan(plan, order)
    ensures t < |plan| ==> forall i, j :: 0 <= i < j < |order| && order[j] == t ==>
      order[i] < |plan| && plan[order[i]] < plan[t]
    decreases |left|
  {
    if left == {} {
      order := [];
    } else {
      var m := LeastIn(plan, left, t);
      var rest := OrderFavouring(plan, left - {m}, t);
      order := [m] + rest;
      forall j | 1 <= j < |order| ensures order[j] in left && order[j] != m {
        assert order[j] == rest[j - 1] && rest[j - 1] in rest;
      }
    }
  }

  lemma WholeOrderFavouring(s0: State, t: Tid) returns (p: seq<Tid>)
    requires Init(s0) && t < |s0.pcs|
    ensures Ordering(s0.contrib, p) && ByPlan(s0.plan, p)
    ensures forall i, j :: 0 <= i < j < |p| && p[j] == t ==> s0.plan[p[i]] < s0.plan[t]
  {
    var all := Where(s0.pcs, Live);
    p := OrderFavouring(s0.plan, all, t);
    forall i | 0 <= i < |p| ensures p[i] < |s0.contrib| {
      assert p[i] in p && p[i] in all;
    }
    forall u: Tid | u < |s0.contrib| ensures u in p {
      assert u in all;
    }
  }

  /** A least thread with a counter can be the one that decides its flags. */
  lemma CanDecide(s0: State, name: string, t: Tid) returns (acts: seq<Action>)
    requires Init(s0) && LeastWith(s0, name, t)
    ensures Completes(s0, acts)
    ensures name in Exec(s0, acts).results.counters
    ensures Exec(s0, acts).results.counters[name].flags == s0.contrib[t].counters[name].flags
  {
    var p := WholeOrderFavouring(s0, t);
    InvInit(s0);
    acts := Realizes(s0, p);
    AllMerged(s0, acts);
    assert t in p;
    var i :| 0 <= i < |p| && p[i] == t;
    assert IsFirst(s0.contrib, p, name, i);
    FirstDecides(s0.contrib, p, name, i);
  }

  ghost predicate SchedulesAgree(s0: State) {
    forall acts, acts' :: Completes(s0, acts) && Completes(s0, acts') ==>
      Exec(s0, acts).results == Exec(s0, acts').results
  }

  /** All whole runs end with the same shared result, counters and flags included, if and only if for
      each counter name the threads of fewest arrivals among those that have it agree on its flags. */
  lemma ScheduleIndependent(s0: State)
    requires Init(s0)
    ensures SchedulesAgree(s0) <==> LeastAgree(s0)
  {
    if LeastAgree(s0) {
      forall acts, acts' | Completes(s0, acts) && Completes(s0, acts')
        ensures Exec(s0, acts).results == Exec(s0, acts').results
      {
        LeastDecide(s0, acts, acts');
      }
    } else {
      var name, t: Tid, u: Tid :| LeastWith(s0, name, t) && LeastWith(s0, name, u) &&
        s0.contrib[t].counters[name].flags != s0.contrib[u].counters[name].flags;
      LeastDisagree(s0, name, t, u);
    }
  }

  lemma LeastDisagree(s0: State, name: string, t: Tid, u: Tid)
    requires Init(s0) && LeastWith(s0, name, t) && LeastWith(s0, name, u)
    requires s0.contrib[t].counters[name].flags != s0.contrib[u].counters[name].flags
    ensures !SchedulesAgree(s0)
  {
    var acts := CanDecide(s0, name, t);
    var acts' := CanDecide(s0, name, u);
    assert Exec(s0, acts).results != Exec(s0, acts').results;
  }

  lemma LeastDecide(s0: State, acts: seq<Action>, acts': seq<Action>)
    requires Init(s0) && LeastAgree(s0) && Completes(s0, acts) && Completes(s0, acts')
    ensures Exec(s0, acts).results == Exec(s0, acts').results
  {
    InvInit(s0);
    AllMerged(s0, acts);
    AllMerged(s0, acts');
    ByPlanRun(s0, acts);
    ByPlanRun(s0, acts');
    var o, p := Exec(s0, acts).order, Exec(s0, acts').order;
    forall name, i: nat, j: nat | IsFirst(s0.contrib, o, name, i) && IsFirst(s0.contrib, p, name, j)
      ensures s0.contrib[o[i]].counters[name].flags == s0.contrib[p[j]].counters[name].flags
    {
      FirstIsLeast(s0, o, name, i);
      FirstIsLeast(s0, p, name, j);
    }
    SameResultExactly(s0.contrib, o, p);
  }
}
