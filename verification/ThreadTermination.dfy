/** Every schedule of `RunInThread` over one `ThreadManager` ends: a rank that falls with each step
    other than a spurious wakeup, and what holds where no other step is left. */
module ThreadTermination {
  import opened Common
  import opened PhaseBarrier
  import opened ThreadManager
  import opened ThreadRuns

  /** Work left in a thread that still has r arrivals to make, among n threads; a notify_all is
      paid for by its notifier, one unit per thread it can wake. */
  function Work(pc: Pc, r: nat, n: nat): nat {
    var body := n + 7 + r * (n + 2);
    match pc
    case Body => body
    case Asleep(_) => body + n + 1
    case Woken(_) => body + n + 2
    case Notifying => body + n + 1
    case Merged => n + 6
    case Removed => 5
    case LastOut => 4
    case Exited => 0
    case Aborted => 0
  }

  function MainWork(m: MainPc): nat {
    match m
    case Running => 4
    case MainWoken => 4
    case Locked => 3
    case Checked => 2
    case Sleeping => 1
    case Waited => 1
    case Joined => 0
  }

  function Total(ws: seq<nat>): nat {
    if ws == [] then 0 else ws[0] + Total(ws[1..])
  }

  lemma {:induction false} TotalUpdate(ws: seq<nat>, i: nat, w: nat)
    requires i < |ws|
    ensures Total(ws[i := w]) == Total(ws) - ws[i] + w
  {
    if i == 0 {
      assert ws[i := w][1..] == ws[1..];
    } else {
      assert ws[i := w][1..] == ws[1..][i - 1 := w];
      TotalUpdate(ws[1..], i - 1, w);
    }
  }

  lemma {:induction false} TotalGrows(ws: seq<nat>, ws': seq<nat>)
    requires |ws| == |ws'| && forall i :: 0 <= i < |ws| ==> ws'[i] <= ws[i] + 1
    ensures Total(ws') <= Total(ws) + |ws|
  {
    if ws != [] { TotalGrows(ws[1..], ws'[1..]); }
  }

  function Left(s: State, t: Tid): nat
    requires |s.arrivals| == |s.plan| == |s.pcs| && t < |s.pcs|
  {
    if s.arrivals[t] <= s.plan[t] then s.plan[t] - s.arrivals[t] else 0
  }

  ghost function Works(s: State): seq<nat>
    requires Shaped(s)
  {
    seq(|s.pcs|, t requires 0 <= t < |s.pcs| => Work(s.pcs[t], Left(s, t), |s.pcs|))
  }

  ghost function Rank(s: State): nat
    requires Shaped(s)
  {
    Total(Works(s)) + MainWork(s.main)
  }

  lemma OneWorks(s: State, s': State, t: Tid)
    requires Shaped(s) && Shaped(s') && t < |s.pcs| == |s'.pcs| && s'.pcs == s.pcs[t := s'.pcs[t]]
    requires s'.plan == s.plan && forall u :: 0 <= u < |s.pcs| && u != t ==> s'.arrivals[u] == s.arrivals[u]
    ensures Total(Works(s')) == Total(Works(s)) - Works(s)[t] + Works(s')[t]
  {
    assert Works(s') == Works(s)[t := Works(s')[t]];
    TotalUpdate(Works(s), t, Works(s')[t]);
  }

  /** Waking everyone costs at most one unit each. */
  lemma WakeAllWorks(s: State, s': State, t: Tid)
    requires Shaped(s) && t < |s.pcs| == |s'.pcs| && s'.pcs == WakeAll(s.pcs)[t := s'.pcs[t]]
    requires s'.plan == s.plan && s'.arrivals == s.arrivals && Shaped(s')
    requires !s.pcs[t].Asleep? && Works(s')[t] + |s.pcs| < Works(s)[t]
    ensures Total(Works(s')) < Total(Works(s))
  {
    var ws, ws' := Works(s), Works(s');
    var mid := ws'[t := ws[t]];
    forall u | 0 <= u < |ws| ensures mid[u] <= ws[u] + 1 {
    }
    TotalGrows(ws, mid);
    TotalUpdate(ws', t, ws[t]);
  }

  lemma Descends(s: State, a: Action)
    requires Inv(s) && Enabled(s, a) && !IsSpurious(a)
    ensures Shaped(Do(s, a)) && Rank(Do(s, a)) < Rank(s)
  {
    if a.Main? {
      assert Works(Do(s, a)) == Works(s);
    } else if a.NotifyAll? || (a.RemoveSelf? && s.bar.entered != 0) {
      NotifierDescends(s, a);
    } else {
      ThreadDescends(s, a);
    }
  }

  lemma NotifierDescends(s: State, a: Action)
    requires Inv(s) && Enabled(s, a) && (a.NotifyAll? || (a.RemoveSelf? && s.bar.entered != 0))
    ensures Shaped(Do(s, a)) && Rank(Do(s, a)) < Rank(s)
  {
    WakeAllWorks(s, Do(s, a), a.t);
  }

  lemma ThreadDescends(s: State, a: Action)
    requires Inv(s) && Enabled(s, a) && !IsSpurious(a)
    requires !a.Main? && !a.NotifyAll? && !(a.RemoveSelf? && s.bar.entered != 0)
    ensures Shaped(Do(s, a)) && Rank(Do(s, a)) < Rank(s)
  {
    var s', t := Do(s, a), a.t;
    assert ThreadOk(s, t);
    if a.Arrive? {
      ArrivalDescends(s, t);
    } else {
      assert Left(s', t) == Left(s, t);
      WorkDrops(s.pcs[t], s'.pcs[t], Left(s, t), |s.pcs|);
      OneWorks(s, s', t);
    }
  }

  lemma ArrivalDescends(s: State, t: Tid)
    requires Inv(s) && Enabled(s, Arrive(t))
    ensures Shaped(Do(s, Arrive(t))) && Rank(Do(s, Arrive(t))) < Rank(s)
  {
    var s', n := Do(s, Arrive(t)), |s.pcs|;
    assert ThreadOk(s, t);
    assert Left(s, t) == Left(s', t) + 1;
    AllWaiting(s, t);
    ArrivalCosts(s'.pcs[t], Left(s', t), n);
    OneWorks(s, s', t);
  }

  lemma ArrivalCosts(pc: Pc, r: nat, n: nat)
    requires pc.Asleep? || pc == Notifying
    ensures Work(pc, r, n) < Work(Body, r + 1, n)
  {
    assert (r + 1) * (n + 2) == r * (n + 2) + n + 2;
  }

  /** The moves of one thread that cost it work without paying for a notify_all. */
  lemma WorkDrops(pc: Pc, pc': Pc, r: nat, n: nat)
    ensures pc == Body && r == 0 && pc' == Merged ==> Work(pc', r, n) < Work(pc, r, n)
    ensures pc.Woken? && (pc'.Asleep? || pc' == Body || pc' == Notifying) ==> Work(pc', r, n) < Work(pc, r, n)
    ensures pc == Merged && pc' == Removed ==> Work(pc', r, n) < Work(pc, r, n)
    ensures pc == Removed && (pc' == LastOut || pc' == Exited) ==> Work(pc', r, n) < Work(pc, r, n)
    ensures pc == LastOut && pc' == Exited ==> Work(pc', r, n) + 4 == Work(pc, r, n)
  {
  }

  lemma SpuriousCosts(s: State, a: Action)
    requires Inv(s) && Enabled(s, a) && IsSpurious(a)
    ensures Shaped(Do(s, a)) && Rank(Do(s, a)) <= Rank(s) + 3
  {
    if a.Spurious? {
      WakingCosts(s, a.t);
    } else {
      assert Works(Do(s, a)) == Works(s);
    }
  }

  lemma WakingCosts(s: State, t: Tid)
    requires Inv(s) && Enabled(s, Spurious(t))
    ensures Shaped(Do(s, Spurious(t))) && Rank(Do(s, Spurious(t))) == Rank(s) + 1
  {
    OneWorks(s, Do(s, Spurious(t)), t);
    WakingWork(s.pcs[t].cp, Left(s, t), |s.pcs|);
  }

  lemma WakingWork(cp: int, r: nat, n: nat)
    ensures Work(Woken(cp), r, n) == Work(Asleep(cp), r, n) + 1
  {
  }

  function Spurs(acts: seq<Action>): nat {
    if acts == [] then 0 else (if IsSpurious(acts[0]) then 1 else 0) + Spurs(acts[1..])
  }

  lemma {:induction false} BoundedFrom(s: State, acts: seq<Action>)
    requires Inv(s) && Legal(s, acts)
    ensures Shaped(Exec(s, acts)) && |acts| + Rank(Exec(s, acts)) <= Rank(s) + 4 * Spurs(acts)
    decreases |acts|
  {
    if acts != [] {
      InvStep(s, acts[0]);
      BoundedFrom(Do(s, acts[0]), acts[1..]);
      if IsSpurious(acts[0]) { SpuriousCosts(s, acts[0]); } else { Descends(s, acts[0]); }
    }
  }

  /** Nothing but a spurious wakeup can happen any more. */
  ghost predicate AtRest(s: State) {
    forall a :: Enabled(s, a) ==> IsSpurious(a)
  }

  /** Every schedule with finitely many spurious wakeups ends, within a bound known at the start;
      where it can go no further, `WaitForAllThreads` has returned and all threads are joined. */
  lemma EveryScheduleEnds(s0: State, acts: seq<Action>)
    requires Init(s0) && Legal(s0, acts)
    ensures |acts| <= Rank(s0) + 4 * Spurs(acts)
    ensures AtRest(Exec(s0, acts)) ==> Exec(s0, acts).main == Joined
  {
    InvInit(s0);
    BoundedFrom(s0, acts);
    NeverStuck(s0, acts);
  }

  lemma {:induction false} GoesOn(s: State) returns (acts: seq<Action>)
    requires Inv(s)
    ensures Legal(s, acts) && Exec(s, acts).main == Joined && Spurs(acts) == 0
    decreases Rank(s)
  {
    if s.main == Joined {
      acts := [];
    } else {
      var a := SomeoneMoves(s);
      InvStep(s, a);
      Descends(s, a);
      var rest := GoesOn(Do(s, a));
      acts := [a] + rest;
      assert acts[1..] == rest;
    }
  }

  /** Every run, wherever it stands, can go on without any spurious wakeup to the point where all
      threads are joined. */
  lemma EveryRunCanFinish(s0: State, acts: seq<Action>) returns (more: seq<Action>)
    requires Init(s0) && Legal(s0, acts)
    ensures Legal(Exec(s0, acts), more) && Spurs(more) == 0
    ensures Exec(Exec(s0, acts), more).main == Joined
  {
    InvInit(s0);
    InvRun(s0, acts);
    more := GoesOn(Exec(s0, acts));
  }
}
