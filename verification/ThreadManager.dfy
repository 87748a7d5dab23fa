/** N threads running `RunInThread` over one `ThreadManager`, and the main thread waiting for them
    (benchmark/src/benchmark.cc, with the barrier of benchmark/src/mutex.h).

    A thread's body arrives at the start-stop barrier any number of times of its own (`plan`); a
    body that skips with an error simply arrives less often.  Then it merges its results, removes
    itself from the barrier and decrements the alive count.  Sections under a mutex are one step;
    `notify_all` after unlocking, the atomic decrement and the locked notification that follows it
    are steps of their own, and so are the main thread's check and its wait. */
module ThreadManager {
  import opened Common
  import opened PhaseBarrier
  import opened Counters

  datatype Pc =
    | Body
    | Asleep(cp: int)
    | Woken(cp: int)
    | Notifying
    | Merged
    | Removed
    | LastOut
    | Exited
    | Aborted

  datatype MainPc = Running | Locked | Checked | Sleeping | MainWoken | Waited | Joined

  /** A `true` returned by `Barrier::wait`: by whom, and from which of its arrivals. */
  datatype Win = Win(t: Tid, arrival: int)

  datatype State = State(
    bar: Shared,
    pcs: seq<Pc>,
    arrivals: seq<nat>,
    plan: seq<nat>,
    contrib: seq<Result>,
    results: Result,
    order: seq<Tid>,
    alive: int,
    main: MainPc,
    wins: seq<Win>)

  datatype Action =
    | Arrive(t: Tid)
    | Wake(t: Tid)
    | NotifyAll(t: Tid)
    | MergeResults(t: Tid)
    | RemoveSelf(t: Tid)
    | Decrement(t: Tid)
    | NotifyEnd(t: Tid)
    | Spurious(t: Tid)
    | Main
    | MainSpurious

  ghost predicate Init(s: State) {
    var n := |s.pcs|;
    && n >= 1 && |s.arrivals| == |s.plan| == |s.contrib| == n
    && s.bar == Shared(n, 0, 0)
    && (forall t :: 0 <= t < n ==> s.pcs[t] == Body && s.arrivals[t] == 0)
    && s.results == EMPTY && s.order == [] && s.alive == n && s.main == Running && s.wins == []
  }

  ghost predicate Shaped(s: State) {
    |s.pcs| >= 1 && |s.arrivals| == |s.plan| == |s.contrib| == |s.pcs|
  }

  ghost predicate Enabled(s: State, a: Action) {
    && Shaped(s)
    && (!a.Main? && !a.MainSpurious? ==> a.t < |s.pcs|)
    && match a
       case Arrive(t) => s.pcs[t] == Body && s.arrivals[t] < s.plan[t]
       case Wake(t) => s.pcs[t].Woken?
       case NotifyAll(t) => s.pcs[t] == Notifying
       case MergeResults(t) => s.pcs[t] == Body && s.arrivals[t] == s.plan[t]
       case RemoveSelf(t) => s.pcs[t] == Merged
       case Decrement(t) => s.pcs[t] == Removed
       case NotifyEnd(t) => s.pcs[t] == LastOut && s.main != Locked && s.main != Checked
       case Spurious(t) => s.pcs[t].Asleep?
       case Main => MainMoves(s)
       case MainSpurious => s.main == Sleeping
  }

  /** The main thread runs thread 0 itself, waits for the count, then joins the other threads. */
  ghost predicate MainMoves(s: State)
    requires Shaped(s)
  {
    match s.main
    case Running => s.pcs[0] == Exited
    case Waited => forall t :: 0 <= t < |s.pcs| ==> s.pcs[t] == Exited
    case Sleeping => false
    case Joined => false
    case _ => true
  }

  function WakeOne(pc: Pc): Pc {
    if pc.Asleep? then Woken(pc.cp) else pc
  }

  function WakeAll(pcs: seq<Pc>): seq<Pc> {
    seq(|pcs|, i requires 0 <= i < |pcs| => WakeOne(pcs[i]))
  }

  ghost function Do(s: State, a: Action): State
    requires Enabled(s, a)
  {
    match a
    case Arrive(t) =>
      var (b, e) := Enter(s.bar);
      var pc := match e case CheckFailed => Aborted case Waits(cp) => Asleep(cp) case Last => Notifying;
      s.(bar := b, pcs := s.pcs[t := pc], arrivals := s.arrivals[t := s.arrivals[t] + 1],
         wins := if e.Last? then s.wins + [Win(t, s.arrivals[t])] else s.wins)
    case Wake(t) =>
      var cp := s.pcs[t].cp;
      if !MayLeave(s.bar, cp) then s.(pcs := s.pcs[t := Asleep(cp)])
      else
        var (b, last) := Leave(s.bar, cp);
        s.(bar := b, pcs := s.pcs[t := if last then Notifying else Body],
           wins := if last then s.wins + [Win(t, s.arrivals[t] as int - 1)] else s.wins)
    case NotifyAll(t) => s.(pcs := WakeAll(s.pcs)[t := Body])
    case MergeResults(t) =>
      s.(results := Merge(s.results, s.contrib[t]), order := s.order + [t], pcs := s.pcs[t := Merged])
    case RemoveSelf(t) =>
      var (b, notify) := Remove(s.bar);
      s.(bar := b, pcs := (if notify then WakeAll(s.pcs) else s.pcs)[t := Removed])
    case Decrement(t) =>
      s.(alive := s.alive - 1, pcs := s.pcs[t := if s.alive - 1 == 0 then LastOut else Exited])
    case NotifyEnd(t) =>
      s.(pcs := s.pcs[t := Exited], main := if s.main == Sleeping then MainWoken else s.main)
    case Spurious(t) => s.(pcs := s.pcs[t := Woken(s.pcs[t].cp)])
    case Main =>
      s.(main := match s.main
                 case Running => Locked
                 case Locked => if s.alive == 0 then Waited else Checked
                 case Checked => Sleeping
                 case MainWoken => Locked
                 case _ => Joined)
    case MainSpurious => s.(main := MainWoken)
  }

  ghost predicate Legal(s: State, acts: seq<Action>)
    decreases |acts|
  {
    acts == [] || (Enabled(s, acts[0]) && Legal(Do(s, acts[0]), acts[1..]))
  }

  ghost function Exec(s: State, acts: seq<Action>): State
    requires Legal(s, acts)
    decreases |acts|
  {
    if acts == [] then s else Exec(Do(s, acts[0]), acts[1..])
  }

  // ----- The invariant -----

  predicate Live(pc: Pc) {
    pc.Body? || pc.Asleep? || pc.Woken? || pc.Notifying? || pc.Merged?
  }

  /** Inside the barrier, having entered in the given phase. */
  function WaitingIn(phase: int): Pc -> bool {
    (pc: Pc) => (pc.Asleep? || pc.Woken?) && pc.cp == phase
  }

  predicate Counted(pc: Pc) {
    Live(pc) || pc.Removed?
  }

  predicate HasMerged(pc: Pc) {
    pc.Merged? || pc.Removed? || pc.LastOut? || pc.Exited?
  }

  ghost predicate CountsOk(s: State) {
    && s.bar.running == |Where(s.pcs, Live)|
    && s.bar.entered == |Where(s.pcs, WaitingIn(s.bar.phase))|
    && s.alive == |Where(s.pcs, Counted)|
  }

  /** Lockstep: a live thread has arrived `phase` times, one more if it waits in the current phase;
      a waiter is at most one phase behind; a thread past its body has made all its arrivals. */
  ghost predicate ThreadOk(s: State, t: Tid)
    requires Shaped(s) && t < |s.pcs|
  {
    var pc := s.pcs[t];
    && pc != Aborted
    && s.arrivals[t] <= s.plan[t]
    && (Live(pc) ==> s.arrivals[t] == s.bar.phase + if WaitingIn(s.bar.phase)(pc) then 1 else 0)
    && (pc.Asleep? || pc.Woken? ==> s.bar.phase - 1 <= pc.cp <= s.bar.phase)
    && (HasMerged(pc) ==> s.arrivals[t] == s.plan[t])
    && (!Live(pc) ==> s.arrivals[t] <= s.bar.phase)
  }

  /** Every sleeper that may leave is about to be notified. */
  ghost predicate WakeOk(s: State)
    requires Shaped(s)
  {
    && (forall t :: 0 <= t < |s.pcs| && s.pcs[t].Asleep? && s.pcs[t].cp < s.bar.phase ==> SomeNotifier(s))
    && (forall t :: 0 <= t < |s.pcs| && s.pcs[t] == Asleep(s.bar.phase) ==> s.bar.entered < s.bar.running)
  }

  ghost predicate SomeNotifier(s: State) {
    exists t :: 0 <= t < |s.pcs| && s.pcs[t] == Notifying
  }

  ghost predicate SomeLastOut(s: State) {
    exists t :: 0 <= t < |s.pcs| && s.pcs[t] == LastOut
  }

  ghost predicate MainOk(s: State)
    requires Shaped(s)
  {
    && (s.main == Checked || s.main == Sleeping ==> s.alive > 0 || SomeLastOut(s))
    && (s.main == Waited || s.main == Joined ==> s.alive == 0)
  }

  ghost predicate MergesOk(s: State)
    requires Shaped(s)
  {
    && (forall i :: 0 <= i < |s.order| ==> s.order[i] < |s.pcs| && HasMerged(s.pcs[s.order[i]]))
    && (forall t :: 0 <= t < |s.pcs| && HasMerged(s.pcs[t]) ==> t in s.order)
    && (forall i, j :: 0 <= i < j < |s.order| ==> s.order[i] != s.order[j])
    && s.results == MergeAll(s.contrib, s.order)
  }

  /** How many waits at the start-stop barrier thread t has come out of. */
  function Passed(s: State, t: Tid): int
    requires t < |s.pcs| && t < |s.arrivals|
  {
    if s.pcs[t].Asleep? || s.pcs[t].Woken? then s.arrivals[t] as int - 1 else s.arrivals[t] as int
  }

  /** The winner of each completed phase has come out of that phase's wait. */
  ghost predicate WinsOk(s: State)
    requires Shaped(s)
  {
    && |s.wins| == s.bar.phase
    && (forall p :: 0 <= p < |s.wins| ==>
          s.wins[p].arrival == p && s.wins[p].t < |s.pcs| && Passed(s, s.wins[p].t) > p)
  }

  ghost predicate Inv(s: State) {
    && Shaped(s)
    && CountsOk(s)
    && (forall t :: 0 <= t < |s.pcs| ==> ThreadOk(s, t))
    && WakeOk(s)
    && MainOk(s)
    && MergesOk(s)
    && WinsOk(s)
  }

  /** Winners stay winners as long as nobody goes back into a wait. */
  lemma WinsKept(s: State, s': State)
    requires Shaped(s) && Shaped(s') && WinsOk(s) && |s'.pcs| == |s.pcs|
    requires s'.wins == s.wins && s'.bar.phase == s.bar.phase
    requires forall u :: 0 <= u < |s.pcs| ==> Passed(s', u) >= Passed(s, u)
    ensures WinsOk(s')
  {
  }

  lemma WinAdded(s: State, s': State, t: Tid)
    requires Shaped(s) && Shaped(s') && WinsOk(s) && t < |s.pcs| == |s'.pcs|
    requires s'.wins == s.wins + [Win(t, s.bar.phase)] && s'.bar.phase == s.bar.phase + 1
    requires forall u :: 0 <= u < |s.pcs| ==> Passed(s', u) >= Passed(s, u)
    requires Passed(s', t) > s.bar.phase
    ensures WinsOk(s')
  {
  }

  // ----- Counting -----

  lemma SubsetCard(a: set<Tid>, b: set<Tid>)
    requires a <= b
    ensures |a| <= |b| && (|a| == |b| ==> a == b)
  {
    assert b == a + (b - a);
    assert |b| == |a| + |b - a|;
  }

  lemma WakeAllCounts(pcs: seq<Pc>, phase: int)
    ensures Where(WakeAll(pcs), Live) == Where(pcs, Live)
    ensures Where(WakeAll(pcs), Counted) == Where(pcs, Counted)
    ensures Where(WakeAll(pcs), WaitingIn(phase)) == Where(pcs, WaitingIn(phase))
  {
  }

  /** How moving thread t to pc changes the three counts. */
  lemma MoveCounts(pcs: seq<Pc>, t: Tid, pc: Pc, phase: int)
    requires t < |pcs|
    ensures |Where(pcs[t := pc], Live)| ==
      |Where(pcs, Live)| - (if Live(pcs[t]) then 1 else 0) + (if Live(pc) then 1 else 0)
    ensures |Where(pcs[t := pc], Counted)| ==
      |Where(pcs, Counted)| - (if Counted(pcs[t]) then 1 else 0) + (if Counted(pc) then 1 else 0)
    ensures |Where(pcs[t := pc], WaitingIn(phase))| ==
      |Where(pcs, WaitingIn(phase))| - (if WaitingIn(phase)(pcs[t]) then 1 else 0)
      + (if WaitingIn(phase)(pc) then 1 else 0)
  {
    WhereUpdate(pcs, t, pc, Live);
    WhereUpdate(pcs, t, pc, Counted);
    WhereUpdate(pcs, t, pc, WaitingIn(phase));
  }

  /** The waiters of the current phase are live; if they are as many, they are all of them. */
  lemma WaitersLive(s: State)
    requires CountsOk(s)
    ensures Where(s.pcs, WaitingIn(s.bar.phase)) <= Where(s.pcs, Live)
    ensures s.bar.entered <= s.bar.running
    ensures s.bar.entered == s.bar.running ==>
      forall t :: 0 <= t < |s.pcs| && Live(s.pcs[t]) ==> WaitingIn(s.bar.phase)(s.pcs[t])
  {
    var w, l := Where(s.pcs, WaitingIn(s.bar.phase)), Where(s.pcs, Live);
    SubsetCard(w, l);
    if s.bar.entered == s.bar.running {
      forall t | 0 <= t < |s.pcs| && Live(s.pcs[t]) ensures WaitingIn(s.bar.phase)(s.pcs[t]) {
        assert t in l;
      }
    }
  }

  lemma MergesKept(s: State, s': State)
    requires Shaped(s) && Shaped(s') && MergesOk(s) && |s'.pcs| == |s.pcs|
    requires s'.order == s.order && s'.results == s.results && s'.contrib == s.contrib
    requires forall t :: 0 <= t < |s.pcs| ==> HasMerged(s'.pcs[t]) == HasMerged(s.pcs[t])
    ensures MergesOk(s')
  {
  }

  // ----- One step -----

  lemma ArriveStep(s: State, t: Tid)
    requires Inv(s) && Enabled(s, Arrive(t))
    ensures Inv(Do(s, Arrive(t)))
  {
    var s' := Do(s, Arrive(t));
    AllWaiting(s, t);
    assert ThreadOk(s, t);
    MergesKept(s, s');
    if s'.pcs[t] == Notifying {
      PhaseAdvanced(s, s', t);
    } else {
      MoveCounts(s.pcs, t, s'.pcs[t], s.bar.phase);
      ArrivalWaits(s, t);
    }
  }

  lemma ArrivalWaits(s: State, t: Tid)
    requires Inv(s) && Enabled(s, Arrive(t)) && Do(s, Arrive(t)).pcs[t] == Asleep(s.bar.phase)
    requires CountsOk(Do(s, Arrive(t))) && MergesOk(Do(s, Arrive(t))) && s.bar.entered + 1 < s.bar.running
    ensures Inv(Do(s, Arrive(t)))
  {
    var s' := Do(s, Arrive(t));
    assert ThreadOk(s, t);
    forall u | 0 <= u < |s'.pcs| ensures ThreadOk(s', u) {
      assert ThreadOk(s, u);
    }
    NotifierKept(s, s', t);
    WinsKept(s, s');
    LastOutKept(s, s', t);
  }

  /** If all live threads but t wait in the current phase, and t is live, the phase is complete. */
  lemma AllWaiting(s: State, t: Tid)
    requires CountsOk(s) && t < |s.pcs| && Live(s.pcs[t]) && !WaitingIn(s.bar.phase)(s.pcs[t])
    ensures s.bar.entered < s.bar.running
    ensures s.bar.entered + 1 == s.bar.running ==>
      forall u :: 0 <= u < |s.pcs| && u != t && Live(s.pcs[u]) ==> WaitingIn(s.bar.phase)(s.pcs[u])
  {
    var w, l := Where(s.pcs, WaitingIn(s.bar.phase)), Where(s.pcs, Live);
    assert t in l && t !in w && w <= l - {t};
    SubsetCard(w, l - {t});
    if s.bar.entered + 1 == s.bar.running {
      forall u | 0 <= u < |s.pcs| && u != t && Live(s.pcs[u]) ensures WaitingIn(s.bar.phase)(s.pcs[u]) {
        assert u in l - {t};
      }
    }
  }

  /** A step of t that leaves the barrier's fields and all arrivals alone. */
  lemma ThreadsKept(s: State, s': State, t: Tid)
    requires Shaped(s) && Shaped(s') && t < |s.pcs| == |s'.pcs| && s'.pcs == s.pcs[t := s'.pcs[t]]
    requires s'.bar == s.bar && s'.arrivals == s.arrivals && s'.plan == s.plan
    requires forall u :: 0 <= u < |s.pcs| ==> ThreadOk(s, u)
    requires ThreadOk(s', t)
    ensures forall u :: 0 <= u < |s'.pcs| ==> ThreadOk(s', u)
  {
    forall u | 0 <= u < |s'.pcs| ensures ThreadOk(s', u) {
      assert ThreadOk(s, u);
    }
  }

  lemma WakeKept(s: State, s': State, t: Tid)
    requires Shaped(s) && Shaped(s') && t < |s.pcs| == |s'.pcs| && s'.pcs == s.pcs[t := s'.pcs[t]] && s'.bar == s.bar
    requires WakeOk(s) && s.pcs[t] != Notifying
    requires s'.pcs[t].Asleep? ==> s'.pcs[t].cp == s.bar.phase && s.bar.entered < s.bar.running
    ensures WakeOk(s')
  {
    NotifierKept(s, s', t);
  }

  lemma NotifierKept(s: State, s': State, t: Tid)
    requires |s'.pcs| == |s.pcs| && t < |s.pcs| && s.pcs[t] != Notifying
    requires forall u :: 0 <= u < |s.pcs| && u != t ==> s.pcs[u] == Notifying ==> s'.pcs[u] == Notifying
    ensures SomeNotifier(s) ==> SomeNotifier(s')
  {
    if SomeNotifier(s) {
      var u :| 0 <= u < |s.pcs| && s.pcs[u] == Notifying;
      assert s'.pcs[u] == Notifying;
    }
  }

  /** The phase completes: t is last, everyone else live waits in it. */
  lemma PhaseAdvanced(s: State, s': State, t: Tid)
    requires Inv(s) && t < |s.pcs| && Live(s.pcs[t]) && s'.pcs == s.pcs[t := Notifying]
    requires forall u :: 0 <= u < |s.pcs| && u != t && Live(s.pcs[u]) ==> WaitingIn(s.bar.phase)(s.pcs[u])
    requires s'.bar == Advance(s.bar)
    requires s'.arrivals == s.arrivals[t := s.bar.phase + 1] && s.bar.phase + 1 <= s.plan[t] && s'.plan == s.plan
    requires s'.alive == s.alive && s'.main == s.main && Shaped(s') && MergesOk(s')
    requires s'.wins == s.wins + [Win(t, s.bar.phase)]
    ensures Inv(s')
  {
    AdvanceCounts(s, s', t);
    forall u | 0 <= u < |s'.pcs| ensures ThreadOk(s', u) {
      assert ThreadOk(s, u);
    }
    assert s'.pcs[t] == Notifying;
    assert ThreadOk(s, t);
    WinAdded(s, s', t);
    LastOutKept(s, s', t);
  }

  /** Nobody waits in the phase that has just begun. */
  lemma AdvanceCounts(s: State, s': State, t: Tid)
    requires Inv(s) && t < |s.pcs| && Live(s.pcs[t]) && s'.pcs == s.pcs[t := Notifying]
    requires s'.bar == Advance(s.bar) && s'.alive == s.alive
    ensures CountsOk(s')
  {
    MoveCounts(s.pcs, t, Notifying, s.bar.phase);
    assert Where(s'.pcs, WaitingIn(s'.bar.phase)) == {} by {
      forall u | 0 <= u < |s'.pcs| ensures !WaitingIn(s'.bar.phase)(s'.pcs[u]) {
        assert ThreadOk(s, u);
      }
    }
  }

  lemma LastOutKept(s: State, s': State, t: Tid)
    requires |s'.pcs| == |s.pcs| && t < |s.pcs| && s.pcs[t] != LastOut
    requires forall u :: 0 <= u < |s.pcs| && u != t ==> s.pcs[u] == LastOut ==> s'.pcs[u] == LastOut
    ensures SomeLastOut(s) ==> SomeLastOut(s')
  {
    if SomeLastOut(s) {
      var u :| 0 <= u < |s.pcs| && s.pcs[u] == LastOut;
      assert s'.pcs[u] == LastOut;
    }
  }

  lemma WakeStep(s: State, t: Tid)
    requires Inv(s) && Enabled(s, Wake(t))
    ensures Inv(Do(s, Wake(t)))
  {
    var s', cp := Do(s, Wake(t)), s.pcs[t].cp;
    assert ThreadOk(s, t);
    if MayLeave(s.bar, cp) && s.bar.phase == cp {
      WaitersLive(s);
      MergesKept(s, s');
      assert s'.arrivals == s.arrivals[t := s.bar.phase + 1];
      PhaseAdvanced(s, s', t);
    } else {
      WaitersLive(s);
      OneMoves(s, s', t);
    }
  }

  /** A step that moves one thread between places the barrier's bookkeeping does not tell apart. */
  lemma OneMoves(s: State, s': State, t: Tid)
    requires Inv(s) && t < |s.pcs| == |s'.pcs| && s' == s.(pcs := s.pcs[t := s'.pcs[t]], main := s'.main)
    requires s.pcs[t] != Notifying && s'.pcs[t] != Aborted && s'.pcs[t] != LastOut
    requires Live(s'.pcs[t]) == Live(s.pcs[t]) && Counted(s'.pcs[t]) == Counted(s.pcs[t])
    requires HasMerged(s'.pcs[t]) == HasMerged(s.pcs[t])
    requires WaitingIn(s.bar.phase)(s'.pcs[t]) == WaitingIn(s.bar.phase)(s.pcs[t])
    requires s'.pcs[t].Asleep? || s'.pcs[t].Woken? ==> s.pcs[t].Asleep? || s.pcs[t].Woken?
    requires s'.pcs[t].Asleep? ==> s'.pcs[t].cp == s.bar.phase && s.bar.entered < s.bar.running
    requires s'.pcs[t].Woken? ==> s.bar.phase - 1 <= s'.pcs[t].cp <= s.bar.phase
    requires if s.pcs[t] == LastOut
             then s'.main != Checked && s'.main != Sleeping && (s'.main == Waited || s'.main == Joined ==> s.alive == 0)
             else s'.main == s.main
    ensures Inv(s')
  {
    CountsKept(s, s', t);
    MergesKept(s, s');
    assert ThreadOk(s, t);
    ThreadsKept(s, s', t);
    WakeKept(s, s', t);
    WinsKept(s, s');
    if s.pcs[t] != LastOut { LastOutKept(s, s', t); }
  }

  lemma CountsKept(s: State, s': State, t: Tid)
    requires CountsOk(s) && t < |s.pcs| == |s'.pcs| && s'.pcs == s.pcs[t := s'.pcs[t]]
    requires s'.bar == s.bar && s'.alive == s.alive
    requires Live(s'.pcs[t]) == Live(s.pcs[t]) && Counted(s'.pcs[t]) == Counted(s.pcs[t])
    requires WaitingIn(s.bar.phase)(s'.pcs[t]) == WaitingIn(s.bar.phase)(s.pcs[t])
    ensures CountsOk(s')
  {
    MoveCounts(s.pcs, t, s'.pcs[t], s.bar.phase);
  }

  /** notify_all leaves nobody asleep, and changes nothing else. */
  lemma WokenAll(s: State, s': State, t: Tid)
    requires Inv(s) && t < |s.pcs| == |s'.pcs| && s'.pcs == WakeAll(s.pcs)[t := s'.pcs[t]]
    requires !s'.pcs[t].Asleep?
    ensures forall u :: 0 <= u < |s.pcs| ==> !s'.pcs[u].Asleep?
    ensures forall u :: 0 <= u < |s.pcs| && u != t ==> s'.pcs[u] == WakeOne(s.pcs[u])
  {
  }

  lemma NotifyAllCounts(s: State, t: Tid)
    requires CountsOk(s) && Enabled(s, NotifyAll(t))
    ensures CountsOk(Do(s, NotifyAll(t)))
  {
    WakeAllCounts(s.pcs, s.bar.phase);
    MoveCounts(WakeAll(s.pcs), t, Body, s.bar.phase);
  }

  lemma NotifyAllThreads(s: State, t: Tid)
    requires Inv(s) && Enabled(s, NotifyAll(t))
    ensures forall u :: 0 <= u < |s.pcs| ==> ThreadOk(Do(s, NotifyAll(t)), u)
  {
    forall u | 0 <= u < |s.pcs| ensures ThreadOk(Do(s, NotifyAll(t)), u) {
      assert ThreadOk(s, u) && ThreadOk(s, t);
    }
  }

  lemma NotifyAllResults(s: State, t: Tid)
    requires Inv(s) && Enabled(s, NotifyAll(t))
    ensures MergesOk(Do(s, NotifyAll(t))) && WinsOk(Do(s, NotifyAll(t))) && MainOk(Do(s, NotifyAll(t)))
  {
    var s' := Do(s, NotifyAll(t));
    MergesKept(s, s');
    WinsKept(s, s');
    LastOutKept(s, s', t);
  }

  lemma NotifyAllStep(s: State, t: Tid)
    requires Inv(s) && Enabled(s, NotifyAll(t))
    ensures Inv(Do(s, NotifyAll(t)))
  {
    var s' := Do(s, NotifyAll(t));
    NotifyAllCounts(s, t);
    NotifyAllThreads(s, t);
    NotifyAllResults(s, t);
    assert WakeOk(s') by { WokenAll(s, s', t); }
  }

  lemma RemoveStep(s: State, t: Tid)
    requires Inv(s) && Enabled(s, RemoveSelf(t))
    ensures Inv(Do(s, RemoveSelf(t)))
  {
    var s' := Do(s, RemoveSelf(t));
    AllWaiting(s, t);
    RemoveCounts(s, t);
    MergesKept(s, s');
    RemoveThreads(s, t);
    RemoveWakes(s, t);
    WinsKept(s, s');
    LastOutKept(s, s', t);
  }

  lemma RemoveThreads(s: State, t: Tid)
    requires Inv(s) && Enabled(s, RemoveSelf(t))
    ensures forall u :: 0 <= u < |s.pcs| ==> ThreadOk(Do(s, RemoveSelf(t)), u)
  {
    forall u | 0 <= u < |s.pcs| ensures ThreadOk(Do(s, RemoveSelf(t)), u) {
      assert ThreadOk(s, u) && ThreadOk(s, t);
    }
  }

  lemma RemoveWakes(s: State, t: Tid)
    requires Inv(s) && Enabled(s, RemoveSelf(t))
    ensures WakeOk(Do(s, RemoveSelf(t)))
  {
    var s' := Do(s, RemoveSelf(t));
    if s.bar.entered != 0 {
      WokenAll(s, s', t);
    } else {
      NobodyInPhase(s);
      NotifierKept(s, s', t);
    }
  }

  lemma RemoveCounts(s: State, t: Tid)
    requires CountsOk(s) && Enabled(s, RemoveSelf(t))
    ensures CountsOk(Do(s, RemoveSelf(t)))
  {
    WakeAllCounts(s.pcs, s.bar.phase);
    MoveCounts(if s.bar.entered != 0 then WakeAll(s.pcs) else s.pcs, t, Removed, s.bar.phase);
  }

  lemma NobodyInPhase(s: State)
    requires CountsOk(s) && s.bar.entered == 0
    ensures forall t :: 0 <= t < |s.pcs| ==> s.pcs[t] != Asleep(s.bar.phase)
  {
    forall t | 0 <= t < |s.pcs| ensures s.pcs[t] != Asleep(s.bar.phase) {
      assert Where(s.pcs, WaitingIn(s.bar.phase)) == {};
      assert t !in Where(s.pcs, WaitingIn(s.bar.phase));
    }
  }

  lemma MergeStep(s: State, t: Tid)
    requires Inv(s) && Enabled(s, MergeResults(t))
    ensures Inv(Do(s, MergeResults(t)))
  {
    var s' := Do(s, MergeResults(t));
    MergeCounts(s, t);
    assert ThreadOk(s, t);
    ThreadsKept(s, s', t);
    WakeKept(s, s', t);
    WinsKept(s, s');
    LastOutKept(s, s', t);
    MergeExtends(s, s', t);
  }

  lemma MergeCounts(s: State, t: Tid)
    requires CountsOk(s) && Enabled(s, MergeResults(t))
    ensures CountsOk(Do(s, MergeResults(t)))
  {
    MoveCounts(s.pcs, t, Merged, s.bar.phase);
  }

  lemma MergeExtends(s: State, s': State, t: Tid)
    requires Shaped(s) && Shaped(s') && MergesOk(s) && t < |s.pcs| && s.pcs[t] == Body && s'.pcs == s.pcs[t := Merged]
    requires s'.contrib == s.contrib && s'.order == s.order + [t] && s'.results == Merge(s.results, s.contrib[t])
    ensures MergesOk(s')
  {
    assert s'.order[..|s'.order| - 1] == s.order;
    NotYetMerged(s, t);
    forall i | 0 <= i < |s'.order| ensures s'.order[i] < |s'.pcs| && HasMerged(s'.pcs[s'.order[i]]) {
      if i < |s.order| { assert s'.order[i] == s.order[i]; }
    }
    forall u | 0 <= u < |s'.pcs| && HasMerged(s'.pcs[u]) ensures u in s'.order {
      if u != t { assert u in s.order; }
    }
  }

  lemma NotYetMerged(s: State, t: Tid)
    requires Shaped(s) && MergesOk(s) && t < |s.pcs| && s.pcs[t] == Body
    ensures t !in s.order
  {
    forall i | 0 <= i < |s.order| ensures s.order[i] != t {
      assert HasMerged(s.pcs[s.order[i]]);
    }
  }

  lemma DecrementStep(s: State, t: Tid)
    requires Inv(s) && Enabled(s, Decrement(t))
    ensures Inv(Do(s, Decrement(t)))
  {
    var s' := Do(s, Decrement(t));
    assert ThreadOk(s, t);
    DecrementCounts(s, t);
    MergesKept(s, s');
    ThreadsKept(s, s', t);
    WakeKept(s, s', t);
    WinsKept(s, s');
    LastOutKept(s, s', t);
    if s'.alive == 0 { assert s'.pcs[t] == LastOut; }
  }

  lemma DecrementCounts(s: State, t: Tid)
    requires CountsOk(s) && Enabled(s, Decrement(t))
    ensures CountsOk(Do(s, Decrement(t))) && s.alive >= 1
  {
    MoveCounts(s.pcs, t, Do(s, Decrement(t)).pcs[t], s.bar.phase);
    assert t in Where(s.pcs, Counted);
  }

  lemma NotifyEndStep(s: State, t: Tid)
    requires Inv(s) && Enabled(s, NotifyEnd(t))
    ensures Inv(Do(s, NotifyEnd(t)))
  {
    OneMoves(s, Do(s, NotifyEnd(t)), t);
  }

  lemma SpuriousStep(s: State, t: Tid)
    requires Inv(s) && Enabled(s, Spurious(t))
    ensures Inv(Do(s, Spurious(t)))
  {
    assert ThreadOk(s, t);
    OneMoves(s, Do(s, Spurious(t)), t);
  }

  lemma MainStep(s: State, a: Action)
    requires Inv(s) && Enabled(s, a) && (a.Main? || a.MainSpurious?)
    ensures Inv(Do(s, a))
  {
    var s' := Do(s, a);
    WinsKept(s, s');
    MergesKept(s, s');
    forall u | 0 <= u < |s'.pcs| ensures ThreadOk(s', u) {
      assert ThreadOk(s, u);
    }
    assert SomeNotifier(s) ==> SomeNotifier(s') by {
      if SomeNotifier(s) { var u :| 0 <= u < |s.pcs| && s.pcs[u] == Notifying; assert s'.pcs[u] == Notifying; }
    }
    assert SomeLastOut(s) ==> SomeLastOut(s') by {
      if SomeLastOut(s) { var u :| 0 <= u < |s.pcs| && s.pcs[u] == LastOut; assert s'.pcs[u] == LastOut; }
    }
    assert s.alive >= 0;
  }

  lemma InvStep(s: State, a: Action)
    requires Inv(s) && Enabled(s, a)
    ensures Inv(Do(s, a))
  {
    match a
    case Arrive(t) => ArriveStep(s, t);
    case Wake(t) => WakeStep(s, t);
    case NotifyAll(t) => NotifyAllStep(s, t);
    case MergeResults(t) => MergeStep(s, t);
    case RemoveSelf(t) => RemoveStep(s, t);
    case Decrement(t) => DecrementStep(s, t);
    case NotifyEnd(t) => NotifyEndStep(s, t);
    case Spurious(t) => SpuriousStep(s, t);
    case _ => MainStep(s, a);
  }

  lemma InvInit(s: State)
    requires Init(s)
    ensures Inv(s)
  {
    WhereAll(s.pcs, Live);
    WhereAll(s.pcs, Counted);
    assert Where(s.pcs, WaitingIn(0)) == {};
    forall t | 0 <= t < |s.pcs| ensures ThreadOk(s, t) {
      assert s.pcs[t] == Body;
    }
  }

  lemma {:induction false} InvRun(s: State, acts: seq<Action>)
    requires Inv(s) && Legal(s, acts)
    ensures Inv(Exec(s, acts))
    ensures var s' := Exec(s, acts); |s'.pcs| == |s.pcs| && s'.plan == s.plan && s'.contrib == s.contrib
    decreases |acts|
  {
    if acts != [] {
      InvStep(s, acts[0]);
      InvRun(Do(s, acts[0]), acts[1..]);
    }
  }
}
