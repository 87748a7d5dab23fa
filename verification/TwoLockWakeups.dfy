/** When the two-lock queue of src/OptimizedThreadSafeQueue.h keeps its wakeups.

    `push` notifies without the head lock, so its `notify_one` can fall between a waiting consumer's
    emptiness check and its wait.  This module says exactly which notifications are lost. */
module TwoLockWakeups {
  import opened Common
  import opened TwoLockQueue
  import opened TwoLockRuns
  import SQ = SimpleQueue

  /** A `wait_and_pop` whose check has found the queue empty: it is bound to go to sleep. */
  ghost predicate Committed<A, T>(m: Mem<A, T>, pc: Pc<A, T>) {
    (pc.PopTailRead? || pc.PopCompare?) && pc.w && m.head == Some(pc.tl)
  }

  /** A thread that accounts for one queued value: a pusher that still has to notify, or a waiting
      consumer that is awake and has not found the queue empty. */
  ghost predicate Covers<A, T>(m: Mem<A, T>, pc: Pc<A, T>) {
    match pc
    case PushMoved => true
    case PushNotify => true
    case PopWoken => true
    case PopLocked(w) => w
    case PopTailLocked(w) => w
    case PopTailRead(w, _) => w && !Committed(m, pc)
    case PopCompare(w, _) => w && !Committed(m, pc)
    case PopHave(w) => w
    case PopTaken(w, _) => w
    case _ => false
  }

  ghost function CoverSet<A, T>(s: State<A, T>): set<Tid> {
    set t | 0 <= t < |s.pcs| && Covers(s.mem, s.pcs[t])
  }

  ghost predicate Waits<A, T>(m: Mem<A, T>, pc: Pc<A, T>) {
    pc == PopAsleep || Committed(m, pc)
  }

  ghost predicate SomeoneWaits<A, T>(s: State<A, T>) {
    exists t :: 0 <= t < |s.pcs| && Waits(s.mem, s.pcs[t])
  }

  ghost predicate SomeoneCommitted<A, T>(s: State<A, T>) {
    exists t :: 0 <= t < |s.pcs| && Committed(s.mem, s.pcs[t])
  }

  /** While a consumer sleeps, or is bound to, every queued value is accounted for. */
  ghost predicate Covered<A, T>(s: State<A, T>, v: View<A, T>) {
    SomeoneWaits(s) ==> |v.q| <= |CoverSet(s)|
  }

  /** A notification that wakes nobody while a consumer is bound to sleep, and that was needed. */
  ghost predicate Missed<A, T>(s: State<A, T>, v: View<A, T>, a: Action<A, T>) {
    a.Notify? && a.wake == None && SomeoneCommitted(s) && |v.q| >= |CoverSet(s)|
  }

  // ----- One step -----

  lemma OneCover<A, T>(s: State<A, T>, s': State<A, T>, t: Tid)
    requires t < |s.pcs| == |s'.pcs|
    requires forall u :: 0 <= u < |s.pcs| && u != t ==> Covers(s'.mem, s'.pcs[u]) == Covers(s.mem, s.pcs[u])
    ensures |CoverSet(s')| + (if Covers(s.mem, s.pcs[t]) then 1 else 0)
         == |CoverSet(s)| + (if Covers(s'.mem, s'.pcs[t]) then 1 else 0)
  {
    forall u ensures u in CoverSet(s') - {t} <==> u in CoverSet(s) - {t} {
      InCover(s, u);
      InCover(s', u);
    }
    InCover(s, t);
    InCover(s', t);
    AllButOne(CoverSet(s), CoverSet(s'), t);
  }

  lemma InCover<A, T>(s: State<A, T>, t: Tid)
    ensures t in CoverSet(s) <==> t < |s.pcs| && Covers(s.mem, s.pcs[t])
  {
  }

  lemma AllButOne(a: set<Tid>, b: set<Tid>, t: Tid)
    requires forall u :: u in b - {t} <==> u in a - {t}
    ensures |b| + (if t in a then 1 else 0) == |a| + (if t in b then 1 else 0)
  {
    assert b - {t} == a - {t};
    WithoutOne(a, t);
    WithoutOne(b, t);
  }

  /** A step of t is not seen by the other threads' accounts. */
  lemma OthersSame<A, T>(s: State<A, T>, t: Tid, u: Tid)
    requires LocksOk(s) && Enabled(s, Step(t)) && u < |s.pcs| && u != t
    ensures |Do(s, Step(t)).pcs| == |s.pcs| && Do(s, Step(t)).pcs[u] == s.pcs[u]
    ensures Covers(Do(s, Step(t)).mem, s.pcs[u]) == Covers(s.mem, s.pcs[u])
    ensures Waits(Do(s, Step(t)).mem, s.pcs[u]) == Waits(s.mem, s.pcs[u])
  {
    HeadStable(s, t, u);
  }

  /** Thread t's own account: a value it adds it covers, a cover it gives up is a value it takes,
      unless it has just seen the queue empty. */
  lemma OwnAccount<A, T>(s: State<A, T>, v: View<A, T>, t: Tid)
    requires Inv(s, v) && Enabled(s, Step(t))
    ensures var s', q' := Do(s, Step(t)), NextView(s, v, Step(t)).q;
      || q' == []
      || (&& |q'| + (if Covers(s.mem, s.pcs[t]) then 1 else 0)
             <= |v.q| + (if Covers(s'.mem, s'.pcs[t]) then 1 else 0)
          && (Waits(s'.mem, s'.pcs[t]) ==> Waits(s.mem, s.pcs[t])))
  {
    assert ThreadOk(s.mem, v, s.pcs[t]);
    match s.pcs[t]
    case PopTailLocked(_) => EmptyAtTail(s, v, t);
    case PopHave(_) => HaveMoves(s, v, t);
    case _ =>
  }

  lemma EmptyAtTail<A, T>(s: State<A, T>, v: View<A, T>, t: Tid)
    requires Inv(s, v) && t < |s.pcs| && s.pcs[t].PopTailLocked?
    ensures s.mem.head == Some(s.mem.tail) ==> v.q == []
  {
    assert HoldsHead(s.pcs[t]) && HolderPc(s.headLock, s.pcs) == s.pcs[t];
    assert v.q != [] ==> v.chain[0] != v.chain[|v.q|];
  }

  lemma HaveMoves<A, T>(s: State<A, T>, v: View<A, T>, t: Tid)
    requires Inv(s, v) && t < |s.pcs| && s.pcs[t].PopHave?
    ensures s.mem.head.Some?
  {
    assert HoldsHead(s.pcs[t]) && HolderPc(s.headLock, s.pcs) == s.pcs[t];
  }

  lemma StepCovered<A, T>(s: State<A, T>, v: View<A, T>, t: Tid)
    requires Inv(s, v) && Covered(s, v) && Enabled(s, Step(t))
    ensures Covered(Do(s, Step(t)), NextView(s, v, Step(t)))
  {
    var s' := Do(s, Step(t));
    forall u | 0 <= u < |s.pcs| && u != t
      ensures Covers(s'.mem, s'.pcs[u]) == Covers(s.mem, s.pcs[u])
      ensures Waits(s'.mem, s'.pcs[u]) == Waits(s.mem, s.pcs[u])
    {
      OthersSame(s, t, u);
    }
    OwnAccount(s, v, t);
    OneCover(s, s', t);
  }

  /** A notification that finds a sleeper hands its account over to it. */
  lemma WakingCovered<A, T>(s: State<A, T>, v: View<A, T>, t: Tid, u: Tid)
    requires Covered(s, v) && Enabled(s, Notify(t, Some(u)))
    ensures Covered(Do(s, Notify(t, Some(u))), v)
  {
    var mid := s.(pcs := s.pcs[u := PopWoken]);
    OneCover(s, mid, u);
    OneCover(mid, Do(s, Notify(t, Some(u))), t);
    assert Waits(s.mem, s.pcs[u]);
  }

  /** One that finds nobody asleep keeps the accounts exactly if it is not missed. */
  lemma SilentNotify<A, T>(s: State<A, T>, v: View<A, T>, t: Tid)
    requires Covered(s, v) && Enabled(s, Notify(t, None))
    ensures Covered(Do(s, Notify(t, None)), v) <==> !Missed(s, v, Notify(t, None))
  {
    var s' := Do(s, Notify(t, None));
    OneCover(s, s', t);
    assert SomeoneWaits(s') <==> SomeoneCommitted(s) by {
      if SomeoneCommitted(s) {
        var c :| 0 <= c < |s.pcs| && Committed(s.mem, s.pcs[c]);
        assert Waits(s'.mem, s'.pcs[c]);
      }
      if SomeoneWaits(s') {
        var c :| 0 <= c < |s.pcs| && Waits(s'.mem, s'.pcs[c]);
        assert s'.pcs[c] == s.pcs[c];
        assert Committed(s.mem, s.pcs[c]);
      }
    }
  }

  /** Calls, returns, allocation and spurious wakeups. */
  lemma OutsideCovered<A, T>(s: State<A, T>, v: View<A, T>, a: Action<A, T>)
    requires Covered(s, v) && Enabled(s, a) && !a.Step? && !a.Notify?
    ensures Covered(Do(s, a), v)
  {
    var s' := Do(s, a);
    assert s'.mem.head == s.mem.head;
    OneCover(s, s', a.t);
    if SomeoneWaits(s') {
      var c :| 0 <= c < |s.pcs| && Waits(s'.mem, s'.pcs[c]);
      assert Waits(s.mem, s.pcs[c]);
    }
  }

  /** Exactly the missed notifications leave a value unaccounted for. */
  lemma LostByStep<A, T>(s: State<A, T>, v: View<A, T>, a: Action<A, T>)
    requires Inv(s, v) && Covered(s, v) && Enabled(s, a)
    ensures Covered(Do(s, a), NextView(s, v, a)) <==> !Missed(s, v, a)
  {
    match a
    case Step(t) => StepCovered(s, v, t);
    case Notify(t, wake) =>
      if wake == None { SilentNotify(s, v, t); } else { WakingCovered(s, v, t, wake.value); }
    case _ => OutsideCovered(s, v, a);
  }

  // ----- Whole runs -----

  ghost predicate AlwaysCovered<A, T>(s: State<A, T>, v: View<A, T>, acts: seq<Action<A, T>>)
    requires Legal(s, acts)
    decreases |acts|
  {
    Covered(s, v) && (acts != [] ==> AlwaysCovered(Do(s, acts[0]), NextView(s, v, acts[0]), acts[1..]))
  }

  ghost predicate NeverMissed<A, T>(s: State<A, T>, v: View<A, T>, acts: seq<Action<A, T>>)
    requires Legal(s, acts)
    decreases |acts|
  {
    acts == [] || (!Missed(s, v, acts[0]) && NeverMissed(Do(s, acts[0]), NextView(s, v, acts[0]), acts[1..]))
  }

  lemma {:induction false} LostFrom<A, T>(s: State<A, T>, v: View<A, T>, acts: seq<Action<A, T>>)
    requires Inv(s, v) && Covered(s, v) && Legal(s, acts)
    ensures AlwaysCovered(s, v, acts) <==> NeverMissed(s, v, acts)
    ensures NeverMissed(s, v, acts) ==> Covered(Exec(s, acts), ViewAfter(s, v, acts))
    decreases |acts|
  {
    if acts != [] {
      LostByStep(s, v, acts[0]);
      InvStep(s, v, acts[0]);
      if !Missed(s, v, acts[0]) {
        LostFrom(Do(s, acts[0]), NextView(s, v, acts[0]), acts[1..]);
      }
    }
  }

  /** In every run: all values stay accounted for, while anyone waits, if and only if no needed
      notification fires past a consumer that is bound to sleep. */
  lemma WakeupsKeptExactly<A, T>(s0: State<A, T>, acts: seq<Action<A, T>>)
    requires Init(s0) && Legal(s0, acts)
    ensures AlwaysCovered(s0, InitView(s0), acts) <==> NeverMissed(s0, InitView(s0), acts)
  {
    InvInit(s0);
    LostFrom(s0, InitView(s0), acts);
  }

  /** No `notify_one` that finds nobody asleep fires while a consumer is bound to sleep. */
  ghost predicate Careful<A, T>(s: State<A, T>, acts: seq<Action<A, T>>)
    requires Legal(s, acts)
    decreases |acts|
  {
    acts == []
    || (!(acts[0].Notify? && acts[0].wake == None && SomeoneCommitted(s)) && Careful(Do(s, acts[0]), acts[1..]))
  }

  lemma {:induction false} CarefulMissesNone<A, T>(s: State<A, T>, v: View<A, T>, acts: seq<Action<A, T>>)
    requires Legal(s, acts) && Careful(s, acts)
    ensures NeverMissed(s, v, acts)
    decreases |acts|
  {
    if acts != [] { CarefulMissesNone(Do(s, acts[0]), NextView(s, v, acts[0]), acts[1..]); }
  }

  /** In every careful run a consumer that sleeps, or is bound to, leaves no value behind that a
      pusher about to notify or another waiting consumer does not account for. */
  lemma CarefulRunsKeepWakeups<A, T>(s0: State<A, T>, acts: seq<Action<A, T>>)
    requires Init(s0) && Legal(s0, acts) && Careful(s0, acts)
    ensures var s, v := Exec(s0, acts), ViewAfter(s0, InitView(s0), acts);
      Inv(s, v) && (SomeoneWaits(s) ==> |v.q| <= |CoverSet(s)|)
  {
    InvInit(s0);
    InvRun(s0, InitView(s0), acts);
    CarefulMissesNone(s0, InitView(s0), acts);
    LostFrom(s0, InitView(s0), acts);
  }

  /** So when everyone is idle or asleep after such a run, nobody sleeps on a value. */
  lemma QuietSleepersHaveNothing<A, T>(s0: State<A, T>, acts: seq<Action<A, T>>, c: Tid)
    requires Init(s0) && Legal(s0, acts) && NeverMissed(s0, InitView(s0), acts)
    requires c < |Exec(s0, acts).pcs| && Exec(s0, acts).pcs[c] == PopAsleep
    requires forall t :: 0 <= t < |Exec(s0, acts).pcs| ==>
      Exec(s0, acts).pcs[t] == Idle || Exec(s0, acts).pcs[t] == PopAsleep
    ensures Exec(s0, acts).mem.head == Some(Exec(s0, acts).mem.tail)
  {
    InvInit(s0);
    InvRun(s0, InitView(s0), acts);
    LostFrom(s0, InitView(s0), acts);
    var s, v := Exec(s0, acts), ViewAfter(s0, InitView(s0), acts);
    assert Waits(s.mem, s.pcs[c]);
    assert CoverSet(s) == {};
    FreeFront(s, v);
  }

  /** With nobody inside a pop, `head` is the front of the chain. */
  lemma FreeFront<A, T>(s: State<A, T>, v: View<A, T>)
    requires Inv(s, v) && forall t :: 0 <= t < |s.pcs| ==> s.pcs[t] == Idle || s.pcs[t] == PopAsleep
    ensures s.mem.head == Some(v.chain[0])
  {
    assert !HolderPc(s.headLock, s.pcs).PopTaken?;
  }

  // ----- A missed notification strands the consumer -----

  /** The notification, then the waiting consumer's own steps up to its wait. */
  function MissThenSleep<A, T>(pc: Pc<A, T>, c: Tid, p: Tid): seq<Action<A, T>> {
    [Notify(p, None)] + (if pc.PopTailRead? then [Step(c)] else []) + [Step(c)]
  }

  lemma ReadThenSleep<A, T>(s: State<A, T>, c: Tid)
    requires c < |s.pcs| && Committed(s.mem, s.pcs[c])
    ensures var steps := (if s.pcs[c].PopTailRead? then [Step(c)] else []) + [Step(c)];
      && Legal(s, steps)
      && Exec(s, steps).mem == s.mem && Exec(s, steps).headLock == None
      && Exec(s, steps).pcs == s.pcs[c := PopAsleep]
  {
    var s1 := if s.pcs[c].PopTailRead? then Do(s, Step(c)) else s;
    assert s1.pcs[c] == PopCompare(true, s.pcs[c].tl) && s1.mem == s.mem;
    var s2 := Do(s1, Step(c));
    var one: seq<Action<A, T>> := [Step(c)];
    assert Legal(s2, []) && Exec(s2, []) == s2;
    assert one + [] == one;
    Prepend(s1, Step(c), []);
    if s.pcs[c].PopTailRead? { Prepend(s, Step(c), one); }
    assert s2.pcs == s.pcs[c := PopAsleep];
  }

  lemma MissSteps<A, T>(s: State<A, T>, c: Tid, p: Tid)
    requires c < |s.pcs| && Committed(s.mem, s.pcs[c]) && Enabled(s, Notify(p, None))
    ensures Legal(s, MissThenSleep(s.pcs[c], c, p))
    ensures SleptPast(s, Exec(s, MissThenSleep(s.pcs[c], c, p)), c, p)
  {
    var s1 := Do(s, Notify(p, None));
    ReadThenSleep(s1, c);
    var steps: seq<Action<A, T>> := (if s.pcs[c].PopTailRead? then [Step(c)] else []) + [Step(c)];
    Prepend(s, Notify(p, None), steps);
    assert MissThenSleep(s.pcs[c], c, p) == [Notify(p, None)] + steps;
  }

  /** The pusher has gone, the consumer sleeps, and nothing else has changed. */
  ghost predicate SleptPast<A, T>(s: State<A, T>, s': State<A, T>, c: Tid, p: Tid)
    requires c < |s.pcs| && p < |s.pcs|
  {
    s'.mem == s.mem && s'.headLock == None && s'.pcs == s.pcs[p := Returning(SQ.Pushed)][c := PopAsleep]
  }

  lemma SleptPastAccount<A, T>(s: State<A, T>, s': State<A, T>, v: View<A, T>, c: Tid, p: Tid)
    requires c < |s.pcs| && Committed(s.mem, s.pcs[c]) && Enabled(s, Notify(p, None))
    requires SleptPast(s, s', c, p)
    ensures CoverSet(s') == CoverSet(s) - {p}
    ensures Covered(s', v) <==> !Missed(s, v, Notify(p, None))
  {
    SleptPastCovers(s, s', c, p);
    assert Waits(s'.mem, s'.pcs[c]);
    InCover(s, p);
    WithoutOne(CoverSet(s), p);
  }

  lemma SleptPastCovers<A, T>(s: State<A, T>, s': State<A, T>, c: Tid, p: Tid)
    requires c < |s.pcs| && Committed(s.mem, s.pcs[c]) && p < |s.pcs| && s.pcs[p] == PushNotify
    requires SleptPast(s, s', c, p)
    ensures CoverSet(s') == CoverSet(s) - {p}
  {
    forall t: Tid ensures t in CoverSet(s') <==> t in CoverSet(s) - {p} {
      InCover(s, t);
      InCover(s', t);
      if t < |s.pcs| && t != c && t != p { assert s'.pcs[t] == s.pcs[t]; }
    }
  }

  /** Under the head lock, a tail other than head means a queued value. */
  lemma TailElsewhere<A, T>(s: State<A, T>, v: View<A, T>, c: Tid)
    requires Inv(s, v) && c < |s.pcs| && Committed(s.mem, s.pcs[c])
    ensures s.mem.head == Some(s.mem.tail) <==> v.q == []
  {
    assert HoldsHead(s.pcs[c]) && HolderPc(s.headLock, s.pcs) == s.pcs[c];
    assert v.q != [] ==> v.chain[0] != v.chain[|v.q|];
  }

  /** From any reachable state with a consumer bound to sleep, a pusher about to notify and nobody
      asleep: the notification goes by and the consumer sleeps, on the same queue, with the pusher's
      cover gone.  It is short of a wakeup exactly if the notification was needed; and if the pusher
      was the only cover of a non-empty queue, the consumer sleeps on it with nobody left. */
  lemma MissStrands<A, T>(s0: State<A, T>, acts: seq<Action<A, T>>, c: Tid, p: Tid)
    requires Init(s0) && Legal(s0, acts)
    requires c < |Exec(s0, acts).pcs| && Committed(Exec(s0, acts).mem, Exec(s0, acts).pcs[c])
    requires Enabled(Exec(s0, acts), Notify(p, None))
    ensures var s, v := Exec(s0, acts), ViewAfter(s0, InitView(s0), acts);
      var more := MissThenSleep(s.pcs[c], c, p);
      && Legal(s, more) && SleptPast(s, Exec(s, more), c, p)
      && CoverSet(Exec(s, more)) == CoverSet(s) - {p}
      && (Covered(Exec(s, more), v) <==> !Missed(s, v, Notify(p, None)))
      && (CoverSet(s) == {p} && s.mem.head != Some(s.mem.tail) ==> CoverSet(Exec(s, more)) == {} && v.q != [])
  {
    InvInit(s0);
    InvRun(s0, InitView(s0), acts);
    var s, v := Exec(s0, acts), ViewAfter(s0, InitView(s0), acts);
    MissSteps(s, c, p);
    SleptPastAccount(s, Exec(s, MissThenSleep(s.pcs[c], c, p)), v, c, p);
    TailElsewhere(s, v, c);
  }

  // ----- A run that loses one -----

  function TwoThreads(m: Mem<nat, int>, hl: Option<Tid>, tl: Option<Tid>, c: Pc<nat, int>, p: Pc<nat, int>)
    : State<nat, int>
  {
    State(m, hl, tl, [c, p])
  }

  ghost predicate Reaches(s: State<nat, int>, s': State<nat, int>) {
    exists acts :: Legal(s, acts) && Exec(s, acts) == s'
  }

  lemma ReachesBefore(s: State<nat, int>, a: Action<nat, int>, s1: State<nat, int>, s': State<nat, int>)
    requires Enabled(s, a) && Do(s, a) == s1 && Reaches(s1, s')
    ensures Reaches(s, s')
  {
    var acts :| Legal(s1, acts) && Exec(s1, acts) == s';
    Prepend(s, a, acts);
  }

  lemma ReachesItself(s: State<nat, int>)
    ensures Reaches(s, s)
  {
    assert Legal(s, []) && Exec(s, []) == s;
  }

  /** The consumer, and an idle or pushing producer, over a queue with n nodes allocated. */
  function Consumer(hl: Option<Tid>, tl: Option<Tid>, pc: Pc<nat, int>): State<nat, int> {
    TwoThreads(Mem(map[0 := Cell(None, None)], Some(0), 0), hl, tl, pc, Idle)
  }

  function Producer(first: Cell<nat, int>, tail: nat, tl: Option<Tid>, pc: Pc<nat, int>): State<nat, int> {
    TwoThreads(Mem(map[0 := first, 1 := Cell(None, None)], Some(0), tail), Some(0), tl, PopCompare(true, 0), pc)
  }

  lemma CheckFirst(goal: State<nat, int>)
    requires Reaches(Consumer(Some(0), Some(0), PopTailLocked(true)), goal)
    ensures Reaches(Consumer(None, None, Idle), goal)
  {
    ReachesBefore(Consumer(Some(0), None, PopLocked(true)), Step(0),
                  Consumer(Some(0), Some(0), PopTailLocked(true)), goal);
    ReachesBefore(Consumer(None, None, PopCalled(true)), Step(0),
                  Consumer(Some(0), None, PopLocked(true)), goal);
    ReachesBefore(Consumer(None, None, Idle), Invoke(0, SQ.WaitPop),
                  Consumer(None, None, PopCalled(true)), goal);
  }

  lemma CheckReads(goal: State<nat, int>)
    requires Reaches(Consumer(Some(0), None, PopCompare(true, 0)), goal)
    ensures Reaches(Consumer(Some(0), Some(0), PopTailLocked(true)), goal)
  {
    ReachesBefore(Consumer(Some(0), Some(0), PopTailRead(true, 0)), Step(0),
                  Consumer(Some(0), None, PopCompare(true, 0)), goal);
    ReachesBefore(Consumer(Some(0), Some(0), PopTailLocked(true)), Step(0),
                  Consumer(Some(0), Some(0), PopTailRead(true, 0)), goal);
  }

  lemma PushBegins(goal: State<nat, int>)
    requires Reaches(Producer(Cell(None, None), 0, Some(1), PushLocked(7, 1)), goal)
    ensures Reaches(Consumer(Some(0), None, PopCompare(true, 0)), goal)
  {
    var s := Consumer(Some(0), None, PopCompare(true, 0));
    ReachesBefore(Producer(Cell(None, None), 0, None, PushReady(7, 1)), Step(1),
                  Producer(Cell(None, None), 0, Some(1), PushLocked(7, 1)), goal);
    ReachesBefore(s.(pcs := [s.pcs[0], PushCalled(7)]), Alloc(1, 1),
                  Producer(Cell(None, None), 0, None, PushReady(7, 1)), goal);
    ReachesBefore(s, Invoke(1, SQ.Push(7)), s.(pcs := [s.pcs[0], PushCalled(7)]), goal);
  }

  lemma PushLinks(goal: State<nat, int>)
    requires Reaches(Producer(Cell(Some(7), Some(1)), 0, Some(1), PushLinked(7, 1)), goal)
    ensures Reaches(Producer(Cell(None, None), 0, Some(1), PushLocked(7, 1)), goal)
  {
    ReachesBefore(Producer(Cell(Some(7), None), 0, Some(1), PushWritten(7, 1)), Step(1),
                  Producer(Cell(Some(7), Some(1)), 0, Some(1), PushLinked(7, 1)), goal);
    ReachesBefore(Producer(Cell(None, None), 0, Some(1), PushLocked(7, 1)), Step(1),
                  Producer(Cell(Some(7), None), 0, Some(1), PushWritten(7, 1)), goal);
  }

  lemma PushEnds(goal: State<nat, int>)
    requires Reaches(Producer(Cell(Some(7), Some(1)), 1, None, PushNotify), goal)
    ensures Reaches(Producer(Cell(Some(7), Some(1)), 0, Some(1), PushLinked(7, 1)), goal)
  {
    var full := Cell(Some(7), Some(1));
    ReachesBefore(Producer(full, 1, Some(1), PushMoved), Step(1), Producer(full, 1, None, PushNotify), goal);
    ReachesBefore(Producer(full, 0, Some(1), PushLinked(7, 1)), Step(1),
                  Producer(full, 1, Some(1), PushMoved), goal);
  }

  lemma FallsAsleep()
    ensures Reaches(Producer(Cell(Some(7), Some(1)), 1, None, Idle),
                    Producer(Cell(Some(7), Some(1)), 1, None, Idle).(headLock := None, pcs := [PopAsleep, Idle]))
  {
    var s := Producer(Cell(Some(7), Some(1)), 1, None, Idle);
    var goal := s.(headLock := None, pcs := [PopAsleep, Idle]);
    ReachesItself(goal);
    ReachesBefore(s, Step(0), goal, goal);
  }

  lemma SleepsLast()
    ensures Reaches(Producer(Cell(Some(7), Some(1)), 1, None, PushNotify),
                    Producer(Cell(Some(7), Some(1)), 1, None, Idle).(headLock := None, pcs := [PopAsleep, Idle]))
  {
    var full := Cell(Some(7), Some(1));
    var goal := Producer(full, 1, None, Idle).(headLock := None, pcs := [PopAsleep, Idle]);
    FallsAsleep();
    ReachesBefore(Producer(full, 1, None, Returning(SQ.Pushed)), Respond(1), Producer(full, 1, None, Idle), goal);
    ReachesBefore(Producer(full, 1, None, PushNotify), Notify(1, None),
                  Producer(full, 1, None, Returning(SQ.Pushed)), goal);
  }

  lemma WholePushBetween(goal: State<nat, int>)
    requires goal == Producer(Cell(Some(7), Some(1)), 1, None, Idle).(headLock := None, pcs := [PopAsleep, Idle])
    ensures Reaches(Consumer(None, None, Idle), goal)
  {
    SleepsLast();
    PushEnds(goal);
    PushLinks(goal);
    PushBegins(goal);
    CheckReads(goal);
    CheckFirst(goal);
  }

  /** "No lost wakeup" is not an invariant here: when a whole push and its notification fall between
      a waiting consumer's emptiness check and its wait, the consumer sleeps on a non-empty queue
      with every lock free and nobody left to wake it. */
  lemma WakeupCanBeLost()
    ensures exists s0, s ::
      && Init(s0) && Reaches(s0, s)
      && s.pcs == [PopAsleep, Idle] && s.headLock == None && s.tailLock == None
      && s.mem.head.Some? && s.mem.head != Some(s.mem.tail)
  {
    var goal := Producer(Cell(Some(7), Some(1)), 1, None, Idle).(headLock := None, pcs := [PopAsleep, Idle]);
    WholePushBetween(goal);
    var s0 := Consumer(None, None, Idle);
    assert Init(s0) && Reaches(s0, goal);
  }
}
