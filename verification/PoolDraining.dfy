/** What callers of the thread pool of src/ThreadPool.h get: when `wait_all` returns, in which order
    tasks start, and that a backlog drains once nobody submits any more. */
module PoolDraining {
  import opened Common
  import opened ThreadPool
  import SQ = SimpleQueue

  // ----- When wait_all returns -----

  /** Whenever a step lets a thread out of `wait_all`, in any run, the count was zero; and unless 2^32
      or more tasks were pending, every task submitted so far had run exactly once and nobody was
      submitting or running one. */
  lemma ReturnsOnlyWhenQuiet(s0: State, acts: seq<Action>, a: Action, t: Tid)
    requires Init(s0) && Legal(s0, acts) && Enabled(Exec(s0, acts), a)
    requires t < |Exec(s0, acts).pcs| && Exec(s0, acts).pcs[t] != WaitDone
    requires Do(Exec(s0, acts), a).pcs[t] == WaitDone
    ensures var s := Exec(s0, acts);
      s.count == 0 && (Quiet(s) <==> Pending(s) < WORD) && (Quiet(Do(s, a)) <==> Pending(s) < WORD)
  {
    ZeroMeansQuiet(s0, acts);
    var s := Exec(s0, acts);
    assert a == Check(t);
    assert Do(s, a).queue == s.queue && Do(s, a).runs == s.runs;
    CheckSeesSame(s, t);
  }

  lemma CheckSeesSame(s: State, t: Tid)
    requires Enabled(s, Check(t))
    ensures Quiet(Do(s, Check(t))) <==> Quiet(s)
  {
    var s' := Do(s, Check(t));
    if Quiet(s) {
      assert forall u :: 0 <= u < |s.pcs| ==> !IsAdding(s'.pcs[u]) && !IsWorking(s'.pcs[u]);
    }
    if Quiet(s') {
      forall u | 0 <= u < |s.pcs| ensures !IsAdding(s.pcs[u]) && !IsWorking(s.pcs[u]) {
        assert !IsAdding(s'.pcs[u]) && !IsWorking(s'.pcs[u]);
      }
    }
  }

  /** On a quiet pool whose mutex is free, a call to `wait_all` returns with its own two steps, and so
      does a waiter that has been woken. */
  lemma ReturnsWhenQuiet(s0: State, acts: seq<Action>, t: Tid)
    requires Init(s0) && Legal(s0, acts)
    requires Quiet(Exec(s0, acts)) && Exec(s0, acts).lock == None && t < |Exec(s0, acts).pcs|
    requires Exec(s0, acts).pcs[t] == WaitWoken || (Exec(s0, acts).pcs[t] == Idle && t >= Exec(s0, acts).workers)
    ensures var s := Exec(s0, acts);
      var more := [if s.pcs[t] == WaitWoken then Relock(t) else WaitStart(t), Check(t), Leave(t)];
      Legal(s, more) && Exec(s, more).pcs == s.pcs[t := Idle] && Exec(s, more).lock == None
  {
    CountsInit(s0);
    CountsRun(s0, acts);
    var s := Exec(s0, acts);
    QuietHasNone(s);
    var a := if s.pcs[t] == WaitWoken then Relock(t) else WaitStart(t);
    var s1 := Do(s, a);
    var s2 := Do(s1, Check(t));
    RunOne(s2, Leave(t), []);
    RunOne(s1, Check(t), [Leave(t)]);
    RunOne(s, a, [Check(t), Leave(t)]);
    assert [a, Check(t), Leave(t)] == [a] + [Check(t), Leave(t)];
  }

  // ----- Tasks start in the order of their pushes -----

  function PushedTask(s: State, a: Action): seq<Task>
    requires a.t < |s.pcs|
  {
    if a.Push? && s.pcs[a.t].Adding? then [s.pcs[a.t].k]
    else if a.Push? && s.pcs[a.t].InTaskAdding? then [s.pcs[a.t].j]
    else []
  }

  /** The task a worker has in hand after a pop. */
  ghost function StartedTask(s: State, a: Action): seq<Task>
    requires Enabled(s, a)
  {
    if a.Pop? && Do(s, a).pcs[a.t].InTask? then [Do(s, a).pcs[a.t].k] else []
  }

  ghost function PushedTasks(s: State, acts: seq<Action>): seq<Task>
    requires Legal(s, acts)
    decreases |acts|
  {
    if acts == [] then [] else PushedTask(s, acts[0]) + PushedTasks(Do(s, acts[0]), acts[1..])
  }

  ghost function StartedTasks(s: State, acts: seq<Action>): seq<Task>
    requires Legal(s, acts)
    decreases |acts|
  {
    if acts == [] then [] else StartedTask(s, acts[0]) + StartedTasks(Do(s, acts[0]), acts[1..])
  }

  lemma OrderStep(s: State, a: Action)
    requires Enabled(s, a)
    ensures s.queue + PushedTask(s, a) == StartedTask(s, a) + Do(s, a).queue
  {
    if a.Pop? { assert s.queue == [s.queue[0]] + s.queue[1..]; }
  }

  /** Tasks started, followed by those queued, are the tasks pushed, in that order. */
  lemma {:induction false} StartInOrder(s: State, acts: seq<Action>)
    requires Legal(s, acts)
    ensures s.queue + PushedTasks(s, acts) == StartedTasks(s, acts) + Exec(s, acts).queue
    decreases |acts|
  {
    if acts != [] {
      var s1, rest := Do(s, acts[0]), acts[1..];
      StartInOrder(s1, rest);
      OrderStep(s, acts[0]);
      SQ.Regroup(s.queue, PushedTask(s, acts[0]), StartedTask(s, acts[0]), s1.queue,
                 PushedTasks(s1, rest), StartedTasks(s1, rest), Exec(s1, rest).queue);
    }
  }

  // ----- A backlog drains -----

  /** Calls from outside, tasks submitting more tasks, and spurious wakeups. */
  predicate NewWork(a: Action) {
    a.Add? || a.WaitStart? || a.Spurious?
  }

  /** Work left in a thread, among n; a notification pays three units for each thread it can wake. */
  function Work(pc: Pc, n: nat): nat {
    match pc
    case Idle => 0
    case Adding(_) => 3 * n + 5
    case InTask(_) => 3 * n + 3
    case InTaskAdding(_, _) => (3 * n + 3) + (3 * n + 5)
    case Finished(_) => 3 * n + 2
    case MustNotify => 3 * n + 1
    case WaitLocked => 2
    case WaitChecked => 1
    case WaitAsleep => 0
    case WaitWoken => 3
    case WaitDone => 1
  }

  function Total(pcs: seq<Pc>, n: nat): nat {
    if pcs == [] then 0 else Work(pcs[0], n) + Total(pcs[1..], n)
  }

  function Rank(s: State): nat {
    Total(s.pcs, |s.pcs|) + |s.queue| * (3 * |s.pcs| + 4)
  }

  lemma {:induction false} TotalUpdate(pcs: seq<Pc>, n: nat, t: nat, pc: Pc)
    requires t < |pcs|
    ensures Total(pcs[t := pc], n) == Total(pcs, n) - Work(pcs[t], n) + Work(pc, n)
  {
    if t == 0 {
      assert pcs[t := pc][1..] == pcs[1..];
    } else {
      assert pcs[t := pc][1..] == pcs[1..][t - 1 := pc];
      TotalUpdate(pcs[1..], n, t - 1, pc);
    }
  }

  lemma {:induction false} TotalWoken(pcs: seq<Pc>, n: nat)
    ensures Total(WakeAll(pcs), n) <= Total(pcs, n) + 3 * |pcs|
  {
    if pcs != [] {
      assert WakeAll(pcs)[1..] == WakeAll(pcs[1..]);
      TotalWoken(pcs[1..], n);
    }
  }

  lemma Drains(s: State, a: Action)
    requires Enabled(s, a) && !NewWork(a)
    ensures Rank(Do(s, a)) < Rank(s)
  {
    var n := |s.pcs|;
    if a.Notify? {
      var woken := WakeAll(s.pcs);
      TotalWoken(s.pcs, n);
      assert woken[a.t] == MustNotify;
      TotalUpdate(woken, n, a.t, Idle);
    } else {
      TotalUpdate(s.pcs, n, a.t, Do(s, a).pcs[a.t]);
      QueueWork(s, a);
    }
  }

  lemma QueueWork(s: State, a: Action)
    requires Enabled(s, a)
    ensures |Do(s, a).queue| == |s.queue| + (if a.Push? then 1 else if a.Pop? then -1 else 0)
    ensures |Do(s, a).queue| * (3 * |s.pcs| + 4) ==
      |s.queue| * (3 * |s.pcs| + 4) + (if a.Push? then 1 else if a.Pop? then -1 else 0) * (3 * |s.pcs| + 4)
  {
    var w := 3 * |s.pcs| + 4;
    var d := if a.Push? then 1 else if a.Pop? then -1 else 0;
    assert (|s.queue| + d) * w == |s.queue| * w + d * w;
  }

  /** Workers are never inside `wait_all`, and submit only from within tasks. */
  ghost predicate WorkersWork(s: State) {
    forall t :: 0 <= t < s.workers && t < |s.pcs| ==>
      s.pcs[t] == Idle || IsWorking(s.pcs[t]) || s.pcs[t] == MustNotify
  }

  lemma WorkersStep(s: State, a: Action)
    requires WorkersWork(s) && Enabled(s, a)
    ensures WorkersWork(Do(s, a)) && Do(s, a).workers == s.workers
  {
  }

  ghost predicate PoolOk(s: State) {
    CountOk(s) && TasksOk(s) && WaitOk(s) && WorkersWork(s)
  }

  lemma PoolStep(s: State, a: Action)
    requires PoolOk(s) && Enabled(s, a)
    ensures PoolOk(Do(s, a))
  {
    CountStep(s, a);
    TasksStep(s, a);
    WaitStep(s, a);
    WorkersStep(s, a);
  }

  lemma {:induction false} PoolRun(s: State, acts: seq<Action>)
    requires PoolOk(s) && Legal(s, acts)
    ensures PoolOk(Exec(s, acts))
    ensures Exec(s, acts).workers == s.workers && |Exec(s, acts).pcs| == |s.pcs|
    decreases |acts|
  {
    if acts != [] {
      PoolStep(s, acts[0]);
      PoolRun(Do(s, acts[0]), acts[1..]);
    }
  }

  lemma PoolInit(s: State)
    requires Init(s)
    ensures PoolOk(s)
  {
    CountsInit(s);
  }

  /** A thread that is neither idle nor asleep leads to a step that is not new work. */
  lemma SomeoneMoves(s: State, t: Tid) returns (a: Action)
    requires PoolOk(s) && t < |s.pcs| && s.pcs[t] != Idle && s.pcs[t] != WaitAsleep
    ensures Enabled(s, a) && !NewWork(a)
  {
    match s.pcs[t]
    case Adding(_) => a := Push(t);
    case InTaskAdding(_, _) => a := Push(t);
    case InTask(k) =>
      assert Holds(s.pcs[t], k);
      a := Finish(t);
    case Finished(_) => a := FetchSub(t);
    case MustNotify => a := if s.lock == None then Notify(t) else LockHolderMoves(s);
    case WaitLocked => a := Check(t);
    case WaitChecked => a := Sleep(t);
    case WaitWoken => a := if s.lock == None then Relock(t) else LockHolderMoves(s);
    case WaitDone => a := Leave(t);
  }

  /** Whoever holds the mutex is in `wait_all` and can go on. */
  ghost function LockHolderMoves(s: State): (a: Action)
    requires LockOk(s) && s.lock.Some?
    ensures Enabled(s, a) && !NewWork(a)
  {
    if s.pcs[s.lock.value] == WaitLocked then Check(s.lock.value) else Sleep(s.lock.value)
  }

  /** Nobody is doing anything, and nothing is left to do. */
  ghost predicate Drained(s: State) {
    s.queue == [] && forall t :: 0 <= t < |s.pcs| ==> s.pcs[t] == Idle
  }

  /** Until then a pool with a worker has a step that is not new work: also when everyone else sleeps. */
  lemma GoesOn(s: State) returns (a: Action)
    requires PoolOk(s) && 1 <= s.workers <= |s.pcs| && !Drained(s)
    ensures Enabled(s, a) && !NewWork(a)
  {
    if t :| 0 <= t < |s.pcs| && s.pcs[t] != Idle && s.pcs[t] != WaitAsleep {
      a := SomeoneMoves(s, t);
    } else {
      if s.queue == [] { NobodyAsleep(s); }
      assert s.pcs[0] == Idle;
      a := Pop(0);
    }
  }

  /** With nothing pending and nobody about to notify, nobody sleeps in `wait_all`. */
  lemma NobodyAsleep(s: State)
    requires PoolOk(s) && s.queue == []
    requires forall t :: 0 <= t < |s.pcs| ==> s.pcs[t] == Idle || s.pcs[t] == WaitAsleep
    ensures forall t :: 0 <= t < |s.pcs| ==> s.pcs[t] == Idle
  {
    assert Where(s.pcs, IsAdding) == {} && Where(s.pcs, IsWorking) == {};
    forall t | 0 <= t < |s.pcs| ensures s.pcs[t] == Idle {
      assert Waits(s.pcs[t]) ==> SomeoneWaits(s);
    }
  }

  function NewWorks(acts: seq<Action>): nat {
    if acts == [] then 0 else (if NewWork(acts[0]) then 1 else 0) + NewWorks(acts[1..])
  }

  lemma NewWorkCosts(s: State, a: Action)
    requires Enabled(s, a) && NewWork(a)
    ensures Rank(Do(s, a)) <= Rank(s) + 3 * |s.pcs| + 5
  {
    TotalUpdate(s.pcs, |s.pcs|, a.t, Do(s, a).pcs[a.t]);
  }

  lemma {:induction false} BoundedFrom(s: State, acts: seq<Action>)
    requires Legal(s, acts)
    ensures |acts| + Rank(Exec(s, acts)) <= Rank(s) + (3 * |s.pcs| + 6) * NewWorks(acts)
    decreases |acts|
  {
    if acts != [] {
      var a, s1, rest := acts[0], Do(s, acts[0]), acts[1..];
      BoundedFrom(s1, rest);
      assert |s1.pcs| == |s.pcs|;
      if NewWork(a) {
        NewWorkCosts(s, a);
        OneMore(3 * |s.pcs| + 6, NewWorks(rest));
      } else {
        Drains(s, a);
      }
    }
  }

  lemma OneMore(c: nat, k: nat)
    ensures c * (k + 1) == c * k + c
  {
  }

  lemma {:induction false} NothingLeft(pcs: seq<Pc>, n: nat)
    requires forall t :: 0 <= t < |pcs| ==> pcs[t] == Idle
    ensures Total(pcs, n) == 0
  {
    if pcs != [] { NothingLeft(pcs[1..], n); }
  }

  /** A run is at most 3n + 6 times as long, for n threads, as the new work it contains: submissions,
      calls to `wait_all` and spurious wakeups.  And a run of a pool with a worker can only be continued
      by new work exactly when nobody is doing anything and no task is queued; then every task
      submitted has run exactly once, and every `wait_all` has returned. */
  lemma EveryBacklogDrains(s0: State, acts: seq<Action>)
    requires Init(s0) && Legal(s0, acts) && 1 <= s0.workers <= |s0.pcs|
    ensures |acts| <= (3 * |s0.pcs| + 6) * NewWorks(acts)
    ensures OnlyNewWork(Exec(s0, acts)) <==> Drained(Exec(s0, acts))
    ensures Drained(Exec(s0, acts)) ==> Quiet(Exec(s0, acts))
  {
    BoundedFrom(s0, acts);
    NothingLeft(s0.pcs, |s0.pcs|);
    PoolInit(s0);
    PoolRun(s0, acts);
    var s := Exec(s0, acts);
    if Drained(s) {
      assert Where(s.pcs, IsAdding) == {} && Where(s.pcs, IsWorking) == {};
      NothingPending(s);
    } else {
      var a := GoesOn(s);
    }
  }

  ghost predicate OnlyNewWork(s: State) {
    forall a :: Enabled(s, a) ==> NewWork(a)
  }

  lemma {:induction false} Finishes(s: State) returns (acts: seq<Action>)
    requires PoolOk(s) && 1 <= s.workers <= |s.pcs|
    ensures Legal(s, acts) && NewWorks(acts) == 0 && Drained(Exec(s, acts))
    decreases Rank(s)
  {
    if Drained(s) {
      acts := [];
    } else {
      var a := GoesOn(s);
      PoolStep(s, a);
      Drains(s, a);
      var rest := Finishes(Do(s, a));
      acts := [a] + rest;
      assert acts[1..] == rest;
    }
  }

  /** Every run of a pool with a worker can go on, without new work, until all is done. */
  lemma EveryRunCanFinish(s0: State, acts: seq<Action>) returns (more: seq<Action>)
    requires Init(s0) && Legal(s0, acts) && 1 <= s0.workers <= |s0.pcs|
    ensures Legal(Exec(s0, acts), more) && NewWorks(more) == 0
    ensures Drained(Exec(Exec(s0, acts), more))
  {
    PoolInit(s0);
    PoolRun(s0, acts);
    more := Finishes(Exec(s0, acts));
  }
}
