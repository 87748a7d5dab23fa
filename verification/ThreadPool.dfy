/** The thread pool of src/ThreadPool.h: an atomic count of unfinished tasks, changed outside the
    mutex that `wait_all` sleeps under.

    Tasks are numbered in the order of their `fetch_add`.  Workers and clients are any number of
    threads; a running task may submit further tasks at any time.  The count is an unsigned 32-bit
    integer and wraps. */
module ThreadPool {
  import opened Common
  import SQ = SimpleQueue

  type Task = nat

  const WORD: int := 0x1_0000_0000

  function AddOne(c: int): int {
    (c + 1) % WORD
  }

  /** `fetch_sub(1)`: the new count, and whether the old one was 1. */
  function SubOne(c: int): (int, bool) {
    ((c - 1) % WORD, c == 1)
  }

  /** The pool object: what a thread does to it in one atomic operation or critical section. */
  class Pool {
    var taskCount: int
    var work: seq<Task>

    constructor ()
      ensures taskCount == 0 && work == []
    {
      taskCount, work := 0, [];
    }

    method CountUp()
      modifies this`taskCount
      ensures taskCount == AddOne(old(taskCount))
    {
      taskCount := (taskCount + 1) % WORD;
    }

    method CountDown() returns (last: bool)
      modifies this`taskCount
      ensures (taskCount, last) == SubOne(old(taskCount))
    {
      last := taskCount == 1;
      taskCount := (taskCount - 1) % WORD;
    }

    method PushTask(k: Task)
      modifies this`work
      ensures work == SQ.Critical(old(work), SQ.Push(k)).0
    {
      work := work + [k];
    }

    method TryPopTask() returns (k: Option<Task>)
      modifies this`work
      ensures (work, Some(if k.Some? then SQ.Popped(k.value) else SQ.Empty)) == SQ.Critical(old(work), SQ.TryPop)
    {
      k := None;
      if work != [] {
        k := Some(work[0]);
        work := work[1..];
      }
    }
  }

  /** `Adding` is between fetch_add and push, in a client or inside a task; `Finished` between the
      task's end and fetch_sub; `MustNotify` between a fetch_sub that returned 1 and notify_all. */
  datatype Pc =
    | Idle
    | Adding(k: Task)
    | InTask(k: Task)
    | InTaskAdding(k: Task, j: Task)
    | Finished(k: Task)
    | MustNotify
    | WaitLocked
    | WaitChecked
    | WaitAsleep
    | WaitWoken
    | WaitDone

  /** The first `workers` threads run `worker_thread`; `runs` counts how often each task has run. */
  datatype State = State(
    workers: nat,
    count: int,
    queue: seq<Task>,
    runs: seq<nat>,
    lock: Option<Tid>,
    pcs: seq<Pc>)

  datatype Action =
    | Add(t: Tid)
    | Push(t: Tid)
    | Pop(t: Tid)
    | Finish(t: Tid)
    | FetchSub(t: Tid)
    | Notify(t: Tid)
    | WaitStart(t: Tid)
    | Check(t: Tid)
    | Sleep(t: Tid)
    | Spurious(t: Tid)
    | Relock(t: Tid)
    | Leave(t: Tid)

  ghost predicate Init(s: State) {
    && s.count == 0 && s.queue == [] && s.runs == [] && s.lock == None
    && forall t :: 0 <= t < |s.pcs| ==> s.pcs[t] == Idle
  }

  ghost predicate Enabled(s: State, a: Action) {
    a.t < |s.pcs| &&
    var pc := s.pcs[a.t];
    match a
    case Add(t) => (pc == Idle && t >= s.workers) || pc.InTask?
    case Push(t) => pc.Adding? || pc.InTaskAdding?
    case Pop(t) => pc == Idle && t < s.workers && s.queue != []
    case Finish(t) => pc.InTask? && pc.k < |s.runs|
    case FetchSub(t) => pc.Finished?
    case Notify(t) => pc == MustNotify && s.lock == None
    case WaitStart(t) => pc == Idle && t >= s.workers && s.lock == None
    case Check(t) => pc == WaitLocked
    case Sleep(t) => pc == WaitChecked
    case Spurious(t) => pc == WaitAsleep
    case Relock(t) => pc == WaitWoken && s.lock == None
    case Leave(t) => pc == WaitDone
  }

  function WakeOne(pc: Pc): Pc {
    if pc == WaitAsleep then WaitWoken else pc
  }

  function WakeAll(pcs: seq<Pc>): seq<Pc> {
    seq(|pcs|, i requires 0 <= i < |pcs| => WakeOne(pcs[i]))
  }

  ghost function Do(s: State, a: Action): State
    requires Enabled(s, a)
  {
    var t, pc := a.t, s.pcs[a.t];
    match a
    case Add(_) =>
      var k := |s.runs|;
      s.(count := AddOne(s.count), runs := s.runs + [0],
         pcs := s.pcs[t := if pc == Idle then Adding(k) else InTaskAdding(pc.k, k)])
    case Push(_) =>
      var k := if pc.Adding? then pc.k else pc.j;
      s.(queue := SQ.Critical(s.queue, SQ.Push(k)).0, pcs := s.pcs[t := if pc.Adding? then Idle else InTask(pc.k)])
    case Pop(_) => s.(queue := SQ.Critical(s.queue, SQ.TryPop).0, pcs := s.pcs[t := InTask(s.queue[0])])
    case Finish(_) => s.(runs := s.runs[pc.k := s.runs[pc.k] + 1], pcs := s.pcs[t := Finished(pc.k)])
    case FetchSub(_) =>
      var (c, last) := SubOne(s.count);
      s.(count := c, pcs := s.pcs[t := if last then MustNotify else Idle])
    case Notify(_) => s.(pcs := WakeAll(s.pcs)[t := Idle])
    case WaitStart(_) => s.(lock := Some(t), pcs := s.pcs[t := WaitLocked])
    case Check(_) =>
      if s.count == 0 then s.(lock := None, pcs := s.pcs[t := WaitDone]) else s.(pcs := s.pcs[t := WaitChecked])
    case Sleep(_) => s.(lock := None, pcs := s.pcs[t := WaitAsleep])
    case Spurious(_) => s.(pcs := s.pcs[t := WaitWoken])
    case Relock(_) => s.(lock := Some(t), pcs := s.pcs[t := WaitLocked])
    case Leave(_) => s.(pcs := s.pcs[t := Idle])
  }

  ghost predicate Legal(s: State, acts: seq<Action>)
    decreases |acts|
  {
    acts == [] || (Enabled(s, acts[0]) && Legal(Do(s, acts[0]), acts[1..]))
  }

  ghost function Exec(s: State, acts: seq<Action>): State
    requires Legal(s, acts)
    decreases |acts|
  {
    if acts == [] then s else Exec(Do(s, acts[0]), acts[1..])
  }

  // ----- The count -----

  predicate IsAdding(pc: Pc) {
    pc.Adding? || pc.InTaskAdding?
  }

  predicate IsWorking(pc: Pc) {
    pc.InTask? || pc.InTaskAdding? || pc.Finished?
  }

  /** Submitters between increment and push, plus the queue, plus workers between pop and decrement. */
  ghost function Pending(s: State): nat {
    |Where(s.pcs, IsAdding)| + |s.queue| + |Where(s.pcs, IsWorking)|
  }

  ghost predicate CountOk(s: State) {
    s.count == Pending(s) % WORD
  }

  lemma MovePending(pcs: seq<Pc>, t: Tid, pc: Pc)
    requires t < |pcs|
    ensures |Where(pcs[t := pc], IsAdding)| ==
      |Where(pcs, IsAdding)| - (if IsAdding(pcs[t]) then 1 else 0) + (if IsAdding(pc) then 1 else 0)
    ensures |Where(pcs[t := pc], IsWorking)| ==
      |Where(pcs, IsWorking)| - (if IsWorking(pcs[t]) then 1 else 0) + (if IsWorking(pc) then 1 else 0)
  {
    WhereUpdate(pcs, t, pc, IsAdding);
    WhereUpdate(pcs, t, pc, IsWorking);
  }

  lemma WakeAllPending(pcs: seq<Pc>)
    ensures Where(WakeAll(pcs), IsAdding) == Where(pcs, IsAdding)
    ensures Where(WakeAll(pcs), IsWorking) == Where(pcs, IsWorking)
  {
  }

  /** How each action changes the number of pending tasks. */
  lemma PendingStep(s: State, a: Action)
    requires Enabled(s, a)
    ensures Pending(Do(s, a)) == Pending(s) + (if a.Add? then 1 else 0) - (if a.FetchSub? then 1 else 0)
  {
    WakeAllPending(s.pcs);
    MovePending(if a.Notify? then WakeAll(s.pcs) else s.pcs, a.t, Do(s, a).pcs[a.t]);
  }

  lemma CountStep(s: State, a: Action)
    requires CountOk(s) && Enabled(s, a)
    ensures CountOk(Do(s, a))
  {
    PendingStep(s, a);
  }

  // ----- Every task runs exactly once -----

  /** The thread holds task x, which has not run yet. */
  predicate Holds(pc: Pc, x: Task) {
    match pc
    case Adding(k) => x == k
    case InTask(k) => x == k
    case InTaskAdding(k, j) => x == k || x == j
    case _ => false
  }

  ghost predicate Placed(s: State, k: Task) {
    k in s.queue || exists t :: 0 <= t < |s.pcs| && Holds(s.pcs[t], k)
  }

  ghost predicate TasksOk(s: State) {
    && (forall i :: 0 <= i < |s.queue| ==> s.queue[i] < |s.runs| && s.runs[s.queue[i]] == 0)
    && (forall t: Tid, k: Task {:trigger Holds(s.pcs[t], k)} ::
          0 <= t < |s.pcs| && Holds(s.pcs[t], k) ==> k < |s.runs| && s.runs[k] == 0 && k !in s.queue)
    && (forall t: Tid, u: Tid, k: Task {:trigger Holds(s.pcs[t], k), Holds(s.pcs[u], k)} ::
          0 <= t < |s.pcs| && 0 <= u < |s.pcs| && t != u && Holds(s.pcs[t], k) ==> !Holds(s.pcs[u], k))
    && (forall i, j :: 0 <= i < j < |s.queue| ==> s.queue[i] != s.queue[j])
    && (forall t :: 0 <= t < |s.pcs| && s.pcs[t].InTaskAdding? ==> s.pcs[t].k != s.pcs[t].j)
    && (forall k :: 0 <= k < |s.runs| ==> Placed(s, k) || s.runs[k] == 1)
  }

  ghost predicate Alike(a: Pc, b: Pc) {
    forall k :: Holds(a, k) == Holds(b, k)
  }

  /** Actions that move no task. */
  lemma TasksKept(s: State, s': State)
    requires TasksOk(s) && |s'.pcs| == |s.pcs| && s'.queue == s.queue && s'.runs == s.runs
    requires forall t :: 0 <= t < |s.pcs| ==>
      Alike(s'.pcs[t], s.pcs[t]) && (s'.pcs[t].InTaskAdding? ==> s'.pcs[t] == s.pcs[t])
    ensures TasksOk(s')
  {
    forall k | 0 <= k < |s'.runs| ensures Placed(s', k) || s'.runs[k] == 1 {
      if Placed(s, k) && k !in s.queue {
        var t :| 0 <= t < |s.pcs| && Holds(s.pcs[t], k);
        assert Holds(s'.pcs[t], k);
      }
    }
  }

  lemma AddTasks(s: State, t: Tid)
    requires TasksOk(s) && Enabled(s, Add(t))
    ensures TasksOk(Do(s, Add(t)))
  {
    var s', n := Do(s, Add(t)), |s.runs|;
    assert forall k :: Holds(s'.pcs[t], k) <==> Holds(s.pcs[t], k) || k == n;
    assert s.pcs[t].InTask? ==> Holds(s.pcs[t], s.pcs[t].k);
    assert n !in s.queue;
    forall u | 0 <= u < |s.pcs| ensures !Holds(s.pcs[u], n) {
      assert Holds(s.pcs[u], n) ==> n < |s.runs|;
    }
    forall u: Tid, k: Task | 0 <= u < |s'.pcs| && Holds(s'.pcs[u], k)
      ensures k < |s'.runs| && s'.runs[k] == 0 && k !in s'.queue
    {
      if k != n { assert Holds(s.pcs[u], k); }
    }
    forall k | 0 <= k < |s'.runs| ensures Placed(s', k) || s'.runs[k] == 1 {
      if k == n {
        assert Holds(s'.pcs[t], k);
      } else if Placed(s, k) && k !in s.queue {
        var u :| 0 <= u < |s.pcs| && Holds(s.pcs[u], k);
        assert Holds(s'.pcs[u], k);
      }
    }
  }

  lemma PushTasks(s: State, t: Tid)
    requires TasksOk(s) && Enabled(s, Push(t))
    ensures TasksOk(Do(s, Push(t)))
  {
    var s', pc := Do(s, Push(t)), s.pcs[t];
    var n := if pc.Adding? then pc.k else pc.j;
    assert Holds(pc, n);
    assert forall k :: Holds(s'.pcs[t], k) <==> Holds(pc, k) && k != n;
    assert s'.queue == s.queue + [n];
    forall k | 0 <= k < |s'.runs| ensures Placed(s', k) || s'.runs[k] == 1 {
      if k == n {
        assert s'.queue[|s.queue|] == n;
      } else if Placed(s, k) && k !in s.queue {
        var u :| 0 <= u < |s.pcs| && Holds(s.pcs[u], k);
        assert Holds(s'.pcs[u], k);
      }
    }
  }

  lemma PopTasks(s: State, t: Tid)
    requires TasksOk(s) && Enabled(s, Pop(t))
    ensures TasksOk(Do(s, Pop(t)))
  {
    var s', n := Do(s, Pop(t)), s.queue[0];
    assert n in s.queue && n !in s'.queue;
    assert forall k :: Holds(s'.pcs[t], k) <==> k == n;
    assert forall k :: k in s'.queue ==> k in s.queue;
    forall u | 0 <= u < |s.pcs| ensures !Holds(s.pcs[u], n) {
      assert Holds(s.pcs[u], n) ==> n !in s.queue;
    }
    forall k | 0 <= k < |s'.runs| ensures Placed(s', k) || s'.runs[k] == 1 {
      if Placed(s, k) { PopPlaces(s, t, k); }
    }
  }

  lemma PopPlaces(s: State, t: Tid, k: Task)
    requires Enabled(s, Pop(t)) && Placed(s, k)
    ensures Placed(Do(s, Pop(t)), k)
  {
    var s' := Do(s, Pop(t));
    if k == s.queue[0] {
      assert Holds(s'.pcs[t], k);
    } else if k in s.queue {
      var i :| 0 <= i < |s.queue| && s.queue[i] == k;
      assert s'.queue[i - 1] == k;
    } else {
      var u :| 0 <= u < |s.pcs| && Holds(s.pcs[u], k);
      assert Holds(s'.pcs[u], k);
    }
  }

  lemma FinishTasks(s: State, t: Tid)
    requires TasksOk(s) && Enabled(s, Finish(t))
    ensures TasksOk(Do(s, Finish(t)))
  {
    var s', n := Do(s, Finish(t)), s.pcs[t].k;
    assert Holds(s.pcs[t], n) && n !in s.queue;
    assert forall k :: !Holds(s'.pcs[t], k);
    assert forall i :: 0 <= i < |s.queue| ==> s.queue[i] in s.queue;
    forall k | 0 <= k < |s'.runs| ensures Placed(s', k) || s'.runs[k] == 1 {
      if k != n && Placed(s, k) && k !in s.queue {
        var u :| 0 <= u < |s.pcs| && Holds(s.pcs[u], k);
        assert Holds(s'.pcs[u], k);
      }
    }
  }

  lemma TasksStep(s: State, a: Action)
    requires TasksOk(s) && Enabled(s, a)
    ensures TasksOk(Do(s, a))
  {
    match a
    case Add(t) => AddTasks(s, t);
    case Push(t) => PushTasks(s, t);
    case Pop(t) => PopTasks(s, t);
    case Finish(t) => FinishTasks(s, t);
    case _ => TasksKept(s, Do(s, a));
  }

  lemma {:induction false} CountsRun(s: State, acts: seq<Action>)
    requires CountOk(s) && TasksOk(s) && Legal(s, acts)
    ensures CountOk(Exec(s, acts)) && TasksOk(Exec(s, acts)) && |Exec(s, acts).pcs| == |s.pcs|
    decreases |acts|
  {
    if acts != [] {
      CountStep(s, acts[0]);
      TasksStep(s, acts[0]);
      CountsRun(Do(s, acts[0]), acts[1..]);
    }
  }

  lemma CountsInit(s: State)
    requires Init(s)
    ensures CountOk(s) && TasksOk(s)
  {
    assert Where(s.pcs, IsAdding) == {} && Where(s.pcs, IsWorking) == {};
    forall t | 0 <= t < |s.pcs| ensures s.pcs[t] == Idle {
      assert s.pcs[t] == Idle;
    }
  }

  /** Every task submitted so far has run exactly once, and nobody is submitting or running one. */
  ghost predicate Quiet(s: State) {
    && (forall k :: 0 <= k < |s.runs| ==> s.runs[k] == 1)
    && s.queue == []
    && (forall t :: 0 <= t < |s.pcs| ==> !IsAdding(s.pcs[t]) && !IsWorking(s.pcs[t]))
  }

  /** No task ever runs twice.  The count is the number of pending tasks modulo 2^32, so a zero
      that `wait_all` observes means quiescence exactly when fewer than 2^32 tasks are pending. */
  lemma ZeroMeansQuiet(s0: State, acts: seq<Action>)
    requires Init(s0) && Legal(s0, acts)
    ensures var s := Exec(s0, acts);
      && s.count == Pending(s) % WORD
      && (forall k :: 0 <= k < |s.runs| ==> s.runs[k] <= 1)
      && (s.count == 0 ==> (Quiet(s) <==> Pending(s) < WORD))
  {
    CountsInit(s0);
    CountsRun(s0, acts);
    var s := Exec(s0, acts);
    forall k | 0 <= k < |s.runs| ensures s.runs[k] <= 1 {
      NotRunTwice(s, k);
    }
    if Quiet(s) {
      QuietHasNone(s);
    }
    if s.count == 0 && Pending(s) < WORD {
      NothingPending(s);
    }
  }

  // ----- The bound is needed -----

  /** Two clients and no worker, after n submissions by the first client. */
  ghost predicate Submitted(s: State, n: nat) {
    && s.workers == 0 && s.pcs == [Idle, Idle] && s.lock == None
    && s.count == n % WORD && |s.queue| == |s.runs| == n
    && forall k :: 0 <= k < n ==> s.runs[k] == 0
  }

  function Submissions(n: nat): seq<Action> {
    if n == 0 then [] else [Add(0), Push(0)] + Submissions(n - 1)
  }

  lemma SubmitOnce(s: State, n: nat)
    requires Submitted(s, n)
    ensures Enabled(s, Add(0)) && Enabled(Do(s, Add(0)), Push(0))
    ensures Submitted(Do(Do(s, Add(0)), Push(0)), n + 1)
  {
  }

  lemma {:induction false} SubmitMany(s: State, n: nat, more: nat)
    requires Submitted(s, n)
    ensures Legal(s, Submissions(more)) && Submitted(Exec(s, Submissions(more)), n + more)
    decreases more
  {
    if more > 0 {
      SubmitOnce(s, n);
      var s1 := Do(s, Add(0));
      var acts := Submissions(more);
      SubmitMany(Do(s1, Push(0)), n + 1, more - 1);
      assert acts[1..][0] == Push(0) && acts[1..][1..] == Submissions(more - 1);
      assert Legal(s1, acts[1..]);
    }
  }

  /** With 2^32 tasks queued the count is zero: `wait_all` would return with every one still to run. */
  lemma ZeroWithTasksQueued()
    ensures exists s0, acts ::
      && Init(s0) && Legal(s0, acts)
      && Exec(s0, acts).count == 0 && |Exec(s0, acts).queue| == WORD && !Quiet(Exec(s0, acts))
  {
    var s0 := State(0, 0, [], [], None, [Idle, Idle]);
    SubmitMany(s0, 0, WORD);
    assert Init(s0) && Legal(s0, Submissions(WORD));
  }

  lemma QuietHasNone(s: State)
    requires Quiet(s)
    ensures Pending(s) == 0
  {
    assert Where(s.pcs, IsAdding) == {} && Where(s.pcs, IsWorking) == {};
  }

  /** A fetch_sub never takes the count below zero while fewer than 2^32 tasks are pending. */
  lemma NeverUnderflows(s0: State, acts: seq<Action>, t: Tid)
    requires Init(s0) && Legal(s0, acts) && Enabled(Exec(s0, acts), FetchSub(t)) && Pending(Exec(s0, acts)) < WORD
    ensures Exec(s0, acts).count >= 1
    ensures Do(Exec(s0, acts), FetchSub(t)).count == Exec(s0, acts).count - 1
  {
    CountsInit(s0);
    CountsRun(s0, acts);
    assert t in Where(Exec(s0, acts).pcs, IsWorking);
  }

  lemma NotRunTwice(s: State, k: Task)
    requires TasksOk(s) && k < |s.runs|
    ensures s.runs[k] <= 1 && (s.runs[k] == 0 <==> Placed(s, k))
  {
    if Placed(s, k) && k !in s.queue {
      var t :| 0 <= t < |s.pcs| && Holds(s.pcs[t], k);
    }
  }

  lemma NothingPending(s: State)
    requires TasksOk(s) && Pending(s) == 0
    ensures Quiet(s)
  {
    forall t | 0 <= t < |s.pcs| ensures !IsAdding(s.pcs[t]) && !IsWorking(s.pcs[t]) {
      assert t !in Where(s.pcs, IsAdding) && t !in Where(s.pcs, IsWorking);
    }
    forall k | 0 <= k < |s.runs| ensures s.runs[k] == 1 {
      assert !Placed(s, k);
    }
  }

  // ----- wait_all is not left asleep -----

  ghost predicate SomeNotifier(s: State) {
    exists t :: 0 <= t < |s.pcs| && s.pcs[t] == MustNotify
  }

  predicate HoldsLock(pc: Pc) {
    pc == WaitLocked || pc == WaitChecked
  }

  ghost predicate LockOk(s: State) {
    && (s.lock.Some? ==> s.lock.value < |s.pcs|)
    && (forall t :: 0 <= t < |s.pcs| ==> (HoldsLock(s.pcs[t]) <==> s.lock == Some(t)))
  }

  /** In `wait_all`, asleep or between the failed check and the sleep. */
  predicate Waits(pc: Pc) {
    pc == WaitAsleep || pc == WaitChecked
  }

  ghost predicate SomeoneWaits(s: State) {
    exists t :: 0 <= t < |s.pcs| && Waits(s.pcs[t])
  }

  /** Once nothing is pending, a waiter is about to be notified. */
  ghost predicate WaitOk(s: State) {
    LockOk(s) && (Pending(s) == 0 && SomeoneWaits(s) ==> SomeNotifier(s))
  }

  lemma NotifierKept(s: State, s': State, t: Tid)
    requires t < |s.pcs| == |s'.pcs| && s.pcs[t] != MustNotify && s'.pcs == s.pcs[t := s'.pcs[t]]
    ensures SomeNotifier(s) ==> SomeNotifier(s')
  {
    if SomeNotifier(s) {
      var u :| 0 <= u < |s.pcs| && s.pcs[u] == MustNotify;
      assert s'.pcs[u] == MustNotify;
    }
  }

  lemma LocksStep(s: State, a: Action)
    requires LockOk(s) && Enabled(s, a)
    ensures LockOk(Do(s, a))
  {
  }

  /** Who waits was waiting before, unless the count it checked was not zero. */
  lemma WaiterBefore(s: State, a: Action)
    requires Enabled(s, a) && SomeoneWaits(Do(s, a)) && !(a.Check? && s.count != 0)
    ensures SomeoneWaits(s)
  {
    var t :| 0 <= t < |s.pcs| && Waits(Do(s, a).pcs[t]);
    assert Waits(s.pcs[t]);
  }

  lemma NotifierStep(s: State, a: Action)
    requires LockOk(s) && Enabled(s, a) && SomeNotifier(s)
    ensures SomeNotifier(Do(s, a)) || (a.Notify? && !SomeoneWaits(Do(s, a)))
  {
    if a.Notify? {
      assert forall t :: 0 <= t < |s.pcs| ==> !HoldsLock(s.pcs[t]);
    } else {
      NotifierKept(s, Do(s, a), a.t);
    }
  }

  lemma WaitStep(s: State, a: Action)
    requires WaitOk(s) && CountOk(s) && Enabled(s, a)
    ensures WaitOk(Do(s, a))
  {
    PendingStep(s, a);
    LocksStep(s, a);
    if Pending(Do(s, a)) == 0 && SomeoneWaits(Do(s, a)) {
      WaiterBefore(s, a);
      if a.FetchSub? {
        assert Do(s, a).pcs[a.t] == MustNotify;
      } else {
        NotifierStep(s, a);
      }
    }
  }

  lemma {:induction false} WaitRun(s: State, acts: seq<Action>)
    requires WaitOk(s) && CountOk(s) && Legal(s, acts)
    ensures WaitOk(Exec(s, acts)) && CountOk(Exec(s, acts)) && |Exec(s, acts).pcs| == |s.pcs|
    decreases |acts|
  {
    if acts != [] {
      WaitStep(s, acts[0]);
      CountStep(s, acts[0]);
      WaitRun(Do(s, acts[0]), acts[1..]);
    }
  }

  /** In every run, however many tasks were ever pending: when the count is zero and fewer than 2^32
      tasks are pending, a `wait_all` caller asleep, or between its failed check and its sleep, is
      covered by a worker between its final fetch_sub and its notification; and that worker can notify
      at once, unless the mutex is held by a waiter that can itself move on. */
  lemma NoWaiterForgotten(s0: State, acts: seq<Action>, t: Tid)
    requires Init(s0) && Legal(s0, acts) && t < |s0.pcs|
    ensures var s := Exec(s0, acts);
      && |s.pcs| == |s0.pcs|
      && (s.count == 0 && Pending(s) < WORD && Waits(s.pcs[t]) ==>
            exists u :: 0 <= u < |s.pcs| && s.pcs[u] == MustNotify
              && (Enabled(s, Notify(u)) || exists h :: Enabled(s, Check(h)) || Enabled(s, Sleep(h))))
  {
    CountsInit(s0);
    WaitRun(s0, acts);
    var s := Exec(s0, acts);
    if s.count == 0 && Pending(s) < WORD && Waits(s.pcs[t]) {
      NotifierMoves(s);
    }
  }

  /** A pending notification is held up at most by a thread that holds the mutex and can move on. */
  lemma NotifierMoves(s: State)
    requires LockOk(s) && SomeNotifier(s)
    ensures exists u :: 0 <= u < |s.pcs| && s.pcs[u] == MustNotify
              && (Enabled(s, Notify(u)) || exists h :: Enabled(s, Check(h)) || Enabled(s, Sleep(h)))
  {
    var u :| 0 <= u < |s.pcs| && s.pcs[u] == MustNotify;
    if s.lock.Some? {
      var h := s.lock.value;
      assert HoldsLock(s.pcs[h]);
      assert Enabled(s, Check(h)) || Enabled(s, Sleep(h));
    } else {
      assert Enabled(s, Notify(u));
    }
  }

  // ----- Waiters on a zero that is not empty -----

  /** A waiter on a zero count, whatever is pending, is about to be notified. */
  ghost predicate Covered(s: State) {
    s.count == 0 && SomeoneWaits(s) ==> SomeNotifier(s)
  }

  /** The fetch_add that wraps the count to zero under a waiter nobody is about to notify. */
  ghost predicate WrapsPast(s: State, a: Action) {
    a.Add? && s.count == WORD - 1 && SomeoneWaits(s) && !SomeNotifier(s)
  }

  lemma CoveredStep(s: State, a: Action)
    requires LockOk(s) && 0 <= s.count < WORD && Covered(s) && Enabled(s, a)
    ensures Covered(Do(s, a)) <==> !WrapsPast(s, a)
  {
    var s' := Do(s, a);
    if a.Add? {
      AddSeesSame(s, a.t);
    } else if s'.count == 0 && SomeoneWaits(s') {
      WaiterBefore(s, a);
      if a.FetchSub? {
        assert s'.pcs[a.t] == MustNotify;
      } else {
        NotifierStep(s, a);
      }
    }
  }

  lemma AddSeesSame(s: State, t: Tid)
    requires Enabled(s, Add(t))
    ensures SomeoneWaits(Do(s, Add(t))) <==> SomeoneWaits(s)
    ensures SomeNotifier(Do(s, Add(t))) <==> SomeNotifier(s)
  {
    var s' := Do(s, Add(t));
    assert forall u :: 0 <= u < |s.pcs| && u != t ==> s'.pcs[u] == s.pcs[u];
    if SomeoneWaits(s) { var u :| 0 <= u < |s.pcs| && Waits(s.pcs[u]); assert Waits(s'.pcs[u]); }
    if SomeNotifier(s) { var u :| 0 <= u < |s.pcs| && s.pcs[u] == MustNotify; assert s'.pcs[u] == MustNotify; }
    if SomeoneWaits(s') { var u :| 0 <= u < |s.pcs| && Waits(s'.pcs[u]); assert Waits(s.pcs[u]); }
    if SomeNotifier(s') { var u :| 0 <= u < |s.pcs| && s'.pcs[u] == MustNotify; assert s.pcs[u] == MustNotify; }
  }

  ghost predicate AlwaysCovered(s: State, acts: seq<Action>)
    requires Legal(s, acts)
    decreases |acts|
  {
    Covered(s) && (acts != [] ==> AlwaysCovered(Do(s, acts[0]), acts[1..]))
  }

  ghost predicate NeverWrapsPast(s: State, acts: seq<Action>)
    requires Legal(s, acts)
    decreases |acts|
  {
    acts == [] || (!WrapsPast(s, acts[0]) && NeverWrapsPast(Do(s, acts[0]), acts[1..]))
  }

  lemma {:induction false} CoveredFrom(s: State, acts: seq<Action>)
    requires LockOk(s) && CountOk(s) && Covered(s) && Legal(s, acts)
    ensures AlwaysCovered(s, acts) <==> NeverWrapsPast(s, acts)
    decreases |acts|
  {
    if acts != [] {
      CoveredStep(s, acts[0]);
      LocksStep(s, acts[0]);
      CountStep(s, acts[0]);
      if !WrapsPast(s, acts[0]) {
        CoveredFrom(Do(s, acts[0]), acts[1..]);
      }
    }
  }

  /** In every run: at every moment a waiter on a zero count is about to be notified, if and only if no
      fetch_add wraps the count to zero under a waiter nobody is about to notify. */
  lemma WaitersCoveredExactly(s0: State, acts: seq<Action>)
    requires Init(s0) && Legal(s0, acts)
    ensures AlwaysCovered(s0, acts) <==> NeverWrapsPast(s0, acts)
  {
    CountsInit(s0);
    CoveredFrom(s0, acts);
  }

  /** It happens: thread 1 waits when 2^32 - 1 tasks are pending, and thread 0 adds one more. */
  lemma WaiterForgottenAtTheWrap()
    ensures exists s0, acts ::
      && Init(s0) && Legal(s0, acts)
      && var s := Exec(s0, acts); s.count == 0 && SomeoneWaits(s) && !SomeNotifier(s)
  {
    var s0 := State(0, 0, [], [], None, [Idle, Idle]);
    SubmitMany(s0, 0, WORD - 1);
    var s1, submitted := Exec(s0, Submissions(WORD - 1)), Submissions(WORD - 1);
    var more := FallsAsleep(s1);
    RunThen(s0, submitted, more);
    assert Legal(s0, submitted + more);
  }

  lemma FallsAsleep(s: State) returns (acts: seq<Action>)
    requires Submitted(s, WORD - 1)
    ensures Legal(s, acts)
    ensures Exec(s, acts).count == 0 && SomeoneWaits(Exec(s, acts)) && !SomeNotifier(Exec(s, acts))
  {
    var s1 := Do(s, WaitStart(1));
    var s2 := Do(s1, Check(1));
    var rest := ForgottenAsleep(s2);
    RunOne(s1, Check(1), rest);
    RunOne(s, WaitStart(1), [Check(1)] + rest);
    acts := [WaitStart(1)] + ([Check(1)] + rest);
  }

  lemma ForgottenAsleep(s: State) returns (acts: seq<Action>)
    requires s.workers == 0 && s.count == WORD - 1 && s.pcs == [Idle, WaitChecked]
    ensures Legal(s, acts)
    ensures Exec(s, acts).count == 0 && SomeoneWaits(Exec(s, acts)) && !SomeNotifier(Exec(s, acts))
  {
    var s1 := Do(s, Sleep(1));
    var s2 := Do(s1, Add(0));
    assert s2.pcs[1] == WaitAsleep && s2.pcs[0].Adding?;
    assert Waits(s2.pcs[1]);
    RunOne(s1, Add(0), []);
    RunOne(s, Sleep(1), [Add(0)]);
    acts := [Sleep(1)] + [Add(0)];
  }

  lemma RunOne(s: State, a: Action, rest: seq<Action>)
    requires Enabled(s, a) && Legal(Do(s, a), rest)
    ensures Legal(s, [a] + rest) && Exec(s, [a] + rest) == Exec(Do(s, a), rest)
  {
    assert ([a] + rest)[1..] == rest;
  }

  lemma {:induction false} RunThen(s: State, acts: seq<Action>, more: seq<Action>)
    requires Legal(s, acts) && Legal(Exec(s, acts), more)
    ensures Legal(s, acts + more) && Exec(s, acts + more) == Exec(Exec(s, acts), more)
    decreases |acts|
  {
    if acts == [] {
      assert acts + more == more;
    } else {
      var rest := acts[1..];
      RunThen(Do(s, acts[0]), rest, more);
      assert acts + more == [acts[0]] + (rest + more);
      RunOne(s, acts[0], rest + more);
    }
  }
}
