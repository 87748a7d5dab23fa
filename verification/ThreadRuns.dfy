/** What every run of N threads over one `ThreadManager` keeps: lockstep, one winner a phase, wakeups
    that are not lost, progress, and results that are sums. */
module ThreadRuns {
  import opened Common
  import opened PhaseBarrier
  import opened Counters
  import opened ThreadManager

  /** Lockstep: when a thread has come out of its k-th wait, every thread still at the barrier has made
      its k-th arrival, and every thread with fewer than k arrivals to make has left it.  With k = 1
      nobody starts the loop before all live threads have reached it; with k = 2 nobody leaves before
      all live threads have finished, and one that skips out of its loop body is waited for until it
      has removed itself. */
  lemma Lockstep(s0: State, acts: seq<Action>, t: Tid, u: Tid)
    requires Init(s0) && Legal(s0, acts) && t < |s0.pcs| && u < |s0.pcs|
    ensures var s := Exec(s0, acts);
      && |s.pcs| == |s.arrivals| == |s0.pcs|
      && (Live(s.pcs[u]) ==> Passed(s, t) <= s.arrivals[u])
      && (Passed(s, t) <= s0.plan[u] ==> Passed(s, t) <= s.arrivals[u])
      && (Passed(s, t) > s0.plan[u] ==> !Live(s.pcs[u]))
  {
    InvInit(s0);
    InvRun(s0, acts);
    var s := Exec(s0, acts);
    assert ThreadOk(s, t) && ThreadOk(s, u);
  }

  /** No waiter is more than one phase behind, live threads' arrival counts differ by at most one,
      and the CHECK at the entry of the barrier never fails. */
  lemma PhasesClose(s0: State, acts: seq<Action>, t: Tid)
    requires Init(s0) && Legal(s0, acts) && t < |s0.pcs|
    ensures var s := Exec(s0, acts);
      && |s.pcs| == |s.arrivals| == |s0.pcs|
      && s.pcs[t] != Aborted
      && (s.pcs[t] == Body ==> s.bar.entered < s.bar.running)
      && (Live(s.pcs[t]) ==> s.bar.phase <= s.arrivals[t] <= s.bar.phase + 1)
      && (s.pcs[t].Asleep? || s.pcs[t].Woken? ==> s.bar.phase - 1 <= s.pcs[t].cp <= s.bar.phase)
      && s.bar.entered == |Where(s.pcs, WaitingIn(s.bar.phase))|
  {
    InvInit(s0);
    InvRun(s0, acts);
    var s := Exec(s0, acts);
    assert ThreadOk(s, t);
    if s.pcs[t] == Body { AllWaiting(s, t); }
  }

  /** Each completed phase has exactly one `true` from `wait`, given to a thread that has made its
      arrival of that phase and come out of it. */
  lemma OneWinnerPerPhase(s0: State, acts: seq<Action>, p: nat)
    requires Init(s0) && Legal(s0, acts)
    ensures var s := Exec(s0, acts);
      && |s.wins| == s.bar.phase
      && |s.arrivals| == |s.pcs| == |s0.pcs|
      && (p < s.bar.phase ==>
            exists i :: 0 <= i < |s.wins| && s.wins[i].arrival == p
              && s.wins[i].t < |s.pcs| && Passed(s, s.wins[i].t) > p
              && forall j :: 0 <= j < |s.wins| && s.wins[j].arrival == p ==> j == i)
      && (p >= s.bar.phase ==> forall j :: 0 <= j < |s.wins| ==> s.wins[j].arrival != p)
  {
    InvInit(s0);
    InvRun(s0, acts);
    var s := Exec(s0, acts);
    if p < s.bar.phase {
      assert s.wins[p].arrival == p;
    }
  }

  /** A sleeper whose predicate is true is always matched by a thread about to notify everyone. */
  lemma NoLostWakeup(s0: State, acts: seq<Action>, t: Tid)
    requires Init(s0) && Legal(s0, acts) && t < |s0.pcs|
    ensures var s := Exec(s0, acts);
      && |s.pcs| == |s0.pcs|
      && (s.pcs[t].Asleep? && MayLeave(s.bar, s.pcs[t].cp) ==>
            exists u :: 0 <= u < |s.pcs| && Enabled(s, NotifyAll(u)) && Do(s, NotifyAll(u)).pcs[t].Woken?)
  {
    InvInit(s0);
    InvRun(s0, acts);
    var s := Exec(s0, acts);
    if s.pcs[t].Asleep? && MayLeave(s.bar, s.pcs[t].cp) {
      assert ThreadOk(s, t);
      assert SomeNotifier(s);
      var u :| 0 <= u < |s.pcs| && s.pcs[u] == Notifying;
      assert Enabled(s, NotifyAll(u)) && Do(s, NotifyAll(u)).pcs[t].Woken?;
    }
  }

  predicate IsSpurious(a: Action) {
    a.Spurious? || a.MainSpurious?
  }

  /** A thread outside the barrier, woken, or about to notify can always take its next step. */
  lemma ThreadCanMove(s: State, t: Tid) returns (a: Action)
    requires Inv(s) && t < |s.pcs| && !s.pcs[t].Asleep? && s.pcs[t] != Exited
    ensures Enabled(s, a) && !IsSpurious(a)
    ensures a.MergeResults? ==> s.pcs[t] == Body && s.arrivals[t] == s.plan[t]
  {
    assert ThreadOk(s, t);
    match s.pcs[t]
    case Body => a := if s.arrivals[t] < s.plan[t] then Arrive(t) else MergeResults(t);
    case Woken(_) => a := Wake(t);
    case Notifying => a := NotifyAll(t);
    case Merged => a := RemoveSelf(t);
    case Removed => a := Decrement(t);
    case LastOut => a := if s.main == Locked || s.main == Checked then Main else NotifyEnd(t);
  }

  /** When all live threads wait in the current phase, `entered_` has reached `running_threads_`. */
  lemma AllEntered(s: State)
    requires CountsOk(s) && forall u :: 0 <= u < |s.pcs| && Live(s.pcs[u]) ==> WaitingIn(s.bar.phase)(s.pcs[u])
    ensures s.bar.entered == s.bar.running
  {
    assert Where(s.pcs, WaitingIn(s.bar.phase)) == Where(s.pcs, Live);
  }

  /** If every thread sleeps or has exited, none sleeps: the last arrival or removal woke them. */
  lemma NotAllAsleep(s: State, t: Tid)
    requires Inv(s) && t < |s.pcs|
    requires forall u :: 0 <= u < |s.pcs| ==> s.pcs[u].Asleep? || s.pcs[u] == Exited
    ensures s.pcs[t] == Exited
  {
    if s.pcs[t].Asleep? {
      assert ThreadOk(s, t);
      forall u | 0 <= u < |s.pcs| && Live(s.pcs[u]) ensures s.pcs[u] == Asleep(s.bar.phase) {
        assert ThreadOk(s, u);
      }
      AllEntered(s);
    }
  }

  lemma SomeoneMoves(s: State) returns (a: Action)
    requires Inv(s) && s.main != Joined
    ensures Enabled(s, a) && !IsSpurious(a)
  {
    if t :| 0 <= t < |s.pcs| && !s.pcs[t].Asleep? && s.pcs[t] != Exited {
      a := ThreadCanMove(s, t);
    } else {
      forall t | 0 <= t < |s.pcs| ensures s.pcs[t] == Exited {
        NotAllAsleep(s, t);
      }
      assert Where(s.pcs, Counted) == {};
      a := Main;
    }
  }

  /** No schedule gets stuck: until the main thread has joined everyone, some thread can take a
      step that is not a spurious wakeup, also when a removal completed the phase. */
  lemma NeverStuck(s0: State, acts: seq<Action>)
    requires Init(s0) && Legal(s0, acts)
    ensures var s := Exec(s0, acts);
      s.main == Joined || exists a :: Enabled(s, a) && !IsSpurious(a)
  {
    InvInit(s0);
    InvRun(s0, acts);
    if Exec(s0, acts).main != Joined {
      var a := SomeoneMoves(Exec(s0, acts));
    }
  }

  lemma AllMergedAt(s: State)
    requires Inv(s) && (s.main == Waited || s.main == Joined)
    ensures Ordering(s.contrib, s.order) && s.results == MergeAll(s.contrib, s.order)
  {
    forall t | 0 <= t < |s.pcs| ensures t in s.order {
      assert t !in Where(s.pcs, Counted) by { assert Where(s.pcs, Counted) == {}; }
      assert ThreadOk(s, t);
    }
  }

  /** When `WaitForAllThreads` has returned, the threads have merged in some order, each exactly once. */
  lemma AllMerged(s0: State, acts: seq<Action>)
    requires Init(s0) && Legal(s0, acts)
    ensures var s := Exec(s0, acts);
      s.main == Waited || s.main == Joined ==>
        Ordering(s0.contrib, s.order) && s.results == MergeAll(s0.contrib, s.order)
  {
    InvInit(s0);
    InvRun(s0, acts);
    if Exec(s0, acts).main == Waited || Exec(s0, acts).main == Joined {
      AllMergedAt(Exec(s0, acts));
    }
  }

  /** Every time, size and user counter of the shared result is then its exact sum over all threads. */
  lemma ResultsAreSums(s0: State, acts: seq<Action>, q: Quantity)
    requires Init(s0) && Legal(s0, acts)
    ensures var s := Exec(s0, acts);
      s.main == Waited || s.main == Joined ==> Get(q, s.results) == Sum(s0.contrib, q)
  {
    AllMerged(s0, acts);
    var s := Exec(s0, acts);
    if s.main == Waited || s.main == Joined {
      MergedIsSum(s0.contrib, s.order, q);
    }
  }
}
