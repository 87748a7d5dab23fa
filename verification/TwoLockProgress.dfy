/** What the callers of the two-lock queue of src/OptimizedThreadSafeQueue.h get for their steps: every
    operation ends within a fixed number of its own steps, and one that runs while the others pause
    does what its name says. */
module TwoLockProgress {
  import opened Common
  import opened TwoLockQueue
  import opened TwoLockRuns
  import SQ = SimpleQueue

  // ----- Every operation takes boundedly many steps of its own -----

  /** Steps of its own that a thread may still take before it returns, notifies or sleeps. */
  function StepsLeft<A, T>(pc: Pc<A, T>): nat {
    match pc
    case PushCalled(_) => 5
    case PushReady(_, _) => 5
    case PushLocked(_, _) => 4
    case PushWritten(_, _) => 3
    case PushLinked(_, _) => 2
    case PushMoved => 1
    case PopCalled(_) => 10
    case PopWoken => 10
    case PopLocked(_) => 9
    case PopTailLocked(_) => 8
    case PopTailRead(_, _) => 7
    case PopCompare(_, _) => 6
    case PopEmpty => 1
    case PopHave(_) => 5
    case PopTaken(_, _) => 4
    case PopAdvanced(_, _) => 3
    case PopOut(_, _) => 2
    case PopData(_, _, _) => 1
    case _ => 0
  }

  /** How often t steps, and how often it is woken, in a run. */
  function StepsOf<A, T>(acts: seq<Action<A, T>>, t: Tid): nat {
    if acts == [] then 0 else (if acts[0] == Step(t) then 1 else 0) + StepsOf(acts[1..], t)
  }

  predicate Wakes<A, T>(a: Action<A, T>, t: Tid) {
    a == Spurious(t) || (a.Notify? && a.wake == Some(t))
  }

  function WakesOf<A, T>(acts: seq<Action<A, T>>, t: Tid): nat {
    if acts == [] then 0 else (if Wakes(acts[0], t) then 1 else 0) + WakesOf(acts[1..], t)
  }

  ghost predicate NoCall<A, T>(acts: seq<Action<A, T>>, t: Tid) {
    forall k :: 0 <= k < |acts| ==> !(acts[k].Invoke? && acts[k].t == t)
  }

  lemma StepUsesOne<A, T>(s: State<A, T>, a: Action<A, T>, t: Tid)
    requires Enabled(s, a) && t < |s.pcs| && !(a.Invoke? && a.t == t)
    ensures |Do(s, a).pcs| == |s.pcs|
    ensures StepsLeft(Do(s, a).pcs[t]) + (if a == Step(t) then 1 else 0)
         <= StepsLeft(s.pcs[t]) + (if Wakes(a, t) then 10 else 0)
  {
  }

  lemma {:induction false} StepsUsed<A, T>(s: State<A, T>, acts: seq<Action<A, T>>, t: Tid)
    requires Legal(s, acts) && t < |s.pcs| && NoCall(acts, t)
    ensures |Exec(s, acts).pcs| == |s.pcs|
    ensures StepsOf(acts, t) + StepsLeft(Exec(s, acts).pcs[t]) <= StepsLeft(s.pcs[t]) + 10 * WakesOf(acts, t)
    decreases |acts|
  {
    if acts != [] {
      StepUsesOne(s, acts[0], t);
      assert forall k :: 0 <= k < |acts[1..]| ==> acts[1..][k] == acts[k + 1];
      StepsUsed(Do(s, acts[0]), acts[1..], t);
    }
  }

  /** From a call to the next one of the same thread, under any interleaving, a push takes at most 5
      steps of its own, a `try_pop` 10, and a `wait_and_pop` 10 and 10 more for each time it is woken. */
  lemma StepsPerCall<A, T>(s: State<A, T>, t: Tid, op: SQ.Op<T>, acts: seq<Action<A, T>>)
    requires Enabled(s, Invoke(t, op)) && Legal(Do(s, Invoke(t, op)), acts) && NoCall(acts, t)
    ensures StepsOf(acts, t) <= (if op.Push? then 5 else 10) + 10 * (if op.WaitPop? then WakesOf(acts, t) else 0)
  {
    var s1 := Do(s, Invoke(t, op));
    StepsUsed(s1, acts, t);
    if !op.WaitPop? { NeverSleeps(s1, acts, t); }
  }

  /** A thread that has not called `wait_and_pop` is never woken. */
  predicate NotWaiting<A, T>(pc: Pc<A, T>) {
    match pc
    case PopCalled(w) => !w
    case PopLocked(w) => !w
    case PopTailLocked(w) => !w
    case PopTailRead(w, _) => !w
    case PopCompare(w, _) => !w
    case PopAsleep => false
    case PopWoken => false
    case _ => true
  }

  lemma StaysAwake<A, T>(s: State<A, T>, a: Action<A, T>, t: Tid)
    requires Enabled(s, a) && t < |s.pcs| && !(a.Invoke? && a.t == t) && NotWaiting(s.pcs[t])
    ensures |Do(s, a).pcs| == |s.pcs| && NotWaiting(Do(s, a).pcs[t]) && !Wakes(a, t)
  {
  }

  lemma {:induction false} NeverSleeps<A, T>(s: State<A, T>, acts: seq<Action<A, T>>, t: Tid)
    requires Legal(s, acts) && t < |s.pcs| && NoCall(acts, t) && NotWaiting(s.pcs[t])
    ensures WakesOf(acts, t) == 0
    decreases |acts|
  {
    if acts != [] {
      StaysAwake(s, acts[0], t);
      assert forall k :: 0 <= k < |acts[1..]| ==> acts[1..][k] == acts[k + 1];
      NeverSleeps(Do(s, acts[0]), acts[1..], t);
    }
  }

  // ----- An operation while the others pause -----

  /** n steps of t. */
  function Steps<A, T>(t: Tid, n: nat): seq<Action<A, T>> {
    if n == 0 then [] else [Step(t)] + Steps(t, n - 1)
  }

  /** After n steps of its own from s, t stands at pc, with these locks and contents. */
  ghost predicate Arrives<A, T>(
    s: State<A, T>, v: View<A, T>, t: Tid, n: nat,
    pc: Pc<A, T>, headLock: Option<Tid>, tailLock: Option<Tid>, v': View<A, T>)
  {
    && Legal(s, Steps(t, n)) && t < |s.pcs|
    && var s' := Exec(s, Steps(t, n));
       && s'.pcs == s.pcs[t := pc] && s'.headLock == headLock && s'.tailLock == tailLock
       && ViewAfter(s, v, Steps(t, n)) == v' && Inv(s', v')
  }

  /** One more step in front. */
  lemma StepFirst<A, T>(s: State<A, T>, v: View<A, T>, t: Tid, n: nat,
                        pc: Pc<A, T>, hl: Option<Tid>, tl: Option<Tid>, v': View<A, T>)
    requires Inv(s, v) && Enabled(s, Step(t))
    requires Arrives(Do(s, Step(t)), NextView(s, v, Step(t)), t, n, pc, hl, tl, v')
    ensures Arrives(s, v, t, n + 1, pc, hl, tl, v')
  {
    Prepend(s, Step(t), Steps(t, n));
    assert Steps<A, T>(t, n + 1)[1..] == Steps(t, n);
  }

  lemma NoSteps<A, T>(s: State<A, T>, v: View<A, T>, t: Tid)
    requires Inv(s, v) && t < |s.pcs|
    ensures Arrives(s, v, t, 0, s.pcs[t], s.headLock, s.tailLock, v)
  {
    assert s.pcs == s.pcs[t := s.pcs[t]];
  }

  /** The second half of a pop: a popper that has found a value takes it. */
  lemma Takes<A, T>(s: State<A, T>, v: View<A, T>, t: Tid)
    requires Inv(s, v) && t < |s.pcs| && s.pcs[t].PopHave?
    ensures v.q != []
    ensures Arrives(s, v, t, 5, Returning(SQ.Popped(v.q[0])), None, s.tailLock, View(v.chain[1..], v.q[1..]))
  {
    assert ThreadOk(s.mem, v, s.pcs[t]) && HoldsHead(s.pcs[t]) && HolderPc(s.headLock, s.pcs) == s.pcs[t];
    assert s.mem.heap[v.chain[0]] == Cell(Some(v.q[0]), Some(v.chain[1]));
    var v' := View(v.chain[1..], v.q[1..]);
    var r: Pc<A, T> := Returning(SQ.Popped(v.q[0]));
    var s1 := Do(s, Step(t));
    InvStep(s, v, Step(t));
    var s2 := Do(s1, Step(t));
    InvStep(s1, v, Step(t));
    Delivers(s2, v', t, v.q[0]);
    StepFirst(s1, v, t, 3, r, None, s.tailLock, v');
    StepFirst(s, v, t, 4, r, None, s.tailLock, v');
  }

  /** Its last three steps: drop the lock, read the data, free the node. */
  lemma Delivers<A, T>(s: State<A, T>, v: View<A, T>, t: Tid, x: T)
    requires Inv(s, v) && t < |s.pcs| && s.pcs[t].PopAdvanced?
    requires s.pcs[t].was in s.mem.heap && s.mem.heap[s.pcs[t].was].data == Some(x)
    ensures Arrives(s, v, t, 3, Returning(SQ.Popped(x)), None, s.tailLock, v)
  {
    var r: Pc<A, T> := Returning(SQ.Popped(x));
    var s1 := Do(s, Step(t));
    InvStep(s, v, Step(t));
    var s2 := Do(s1, Step(t));
    InvStep(s1, v, Step(t));
    var s3 := Do(s2, Step(t));
    InvStep(s2, v, Step(t));
    NoSteps(s3, v, t);
    assert s3.pcs[t] == r;
    StepFirst(s2, v, t, 0, r, None, s.tailLock, v);
    StepFirst(s1, v, t, 1, r, None, s.tailLock, v);
    StepFirst(s, v, t, 2, r, None, s.tailLock, v);
  }

  /** How a pop ends that runs alone, k steps before its comparison: with the front value if there is
      one; otherwise a `try_pop` answers that there is none, and a `wait_and_pop` sleeps. */
  ghost predicate PopEnds<A, T>(s: State<A, T>, v: View<A, T>, t: Tid, w: bool, k: nat) {
    if v.q != [] && v.chain != [] then
      Arrives(s, v, t, k + 6, Returning(SQ.Popped(v.q[0])), None, None, View(v.chain[1..], v.q[1..]))
    else if w then Arrives(s, v, t, k + 1, PopAsleep, None, None, v)
    else Arrives(s, v, t, k + 2, Returning(SQ.Empty), None, None, v)
  }

  lemma PopStepFirst<A, T>(s: State<A, T>, v: View<A, T>, t: Tid, w: bool, k: nat)
    requires Inv(s, v) && Enabled(s, Step(t)) && !s.pcs[t].PushLinked? && !s.pcs[t].PopTaken?
    requires PopEnds(Do(s, Step(t)), v, t, w, k)
    ensures PopEnds(s, v, t, w, k + 1)
  {
    if v.q != [] && v.chain != [] {
      StepFirst(s, v, t, k + 6, Returning(SQ.Popped(v.q[0])), None, None, View(v.chain[1..], v.q[1..]));
    } else if w {
      StepFirst(s, v, t, k + 1, PopAsleep, None, None, v);
    } else {
      StepFirst(s, v, t, k + 2, Returning(SQ.Empty), None, None, v);
    }
  }

  /** Under the head lock, `head` is `tail` exactly on the empty queue. */
  lemma EmptyAtTail<A, T>(s: State<A, T>, v: View<A, T>, t: Tid)
    requires Inv(s, v) && t < |s.pcs| && s.pcs[t].PopCompare?
    ensures s.mem.head == Some(s.mem.tail) <==> v.q == []
  {
    CompareThread(s, v, t);
    assert v.q != [] ==> v.chain[0] != v.chain[|v.q|];
  }

  lemma FromCompare<A, T>(s: State<A, T>, v: View<A, T>, t: Tid)
    requires Inv(s, v) && t < |s.pcs| && s.pcs[t].PopCompare? && s.pcs[t].tl == s.mem.tail && s.tailLock == None
    ensures PopEnds(s, v, t, s.pcs[t].w, 0)
  {
    EmptyAtTail(s, v, t);
    var s1, w := Do(s, Step(t)), s.pcs[t].w;
    InvStep(s, v, Step(t));
    if v.q != [] {
      Takes(s1, v, t);
      StepFirst(s, v, t, 5, Returning(SQ.Popped(v.q[0])), None, None, View(v.chain[1..], v.q[1..]));
    } else if w {
      HeldHead(s, t);
      NoSteps(s1, v, t);
      assert s1.pcs[t] == PopAsleep;
      StepFirst(s, v, t, 0, PopAsleep, None, None, v);
    } else {
      FromEmpty(s1, v, t);
      StepFirst(s, v, t, 1, Returning(SQ.Empty), None, None, v);
    }
  }

  lemma HeldHead<A, T>(s: State<A, T>, t: Tid)
    requires LocksOk(s) && t < |s.pcs|
    ensures HoldsHead(s.pcs[t]) ==> s.headLock == Some(t)
    ensures HoldsTail(s.pcs[t]) ==> s.tailLock == Some(t)
  {
  }

  lemma FromEmpty<A, T>(s: State<A, T>, v: View<A, T>, t: Tid)
    requires Inv(s, v) && t < |s.pcs| && s.pcs[t].PopEmpty? && s.tailLock == None
    ensures Arrives(s, v, t, 1, Returning(SQ.Empty), None, None, v)
  {
    var s1 := Do(s, Step(t));
    InvStep(s, v, Step(t));
    NoSteps(s1, v, t);
    assert s1.pcs[t] == Returning(SQ.Empty);
    StepFirst(s, v, t, 0, Returning(SQ.Empty), None, None, v);
  }

  /** A step of a popper that is still looking: it keeps the contents, and where it leads. */
  lemma LooksOn<A, T>(s: State<A, T>, v: View<A, T>, t: Tid) returns (s1: State<A, T>)
    requires Inv(s, v) && Enabled(s, Step(t))
    requires s.pcs[t].PopTailRead? || s.pcs[t].PopTailLocked? || s.pcs[t].PopLocked?
             || s.pcs[t].PopCalled? || s.pcs[t] == PopWoken
    ensures s1 == Do(s, Step(t)) && Inv(s1, v) && t < |s1.pcs| && s1.mem == s.mem
    ensures s.pcs[t].PopTailRead? ==> s1.pcs[t] == PopCompare(s.pcs[t].w, s.pcs[t].tl) && s1.tailLock == None
    ensures s.pcs[t].PopTailLocked? ==> s1.pcs[t] == PopTailRead(s.pcs[t].w, s.mem.tail)
    ensures s.pcs[t].PopLocked? ==> s1.pcs[t] == PopTailLocked(s.pcs[t].w)
    ensures s.pcs[t].PopCalled? ==> s1.pcs[t] == PopLocked(s.pcs[t].w) && s1.tailLock == s.tailLock
    ensures s.pcs[t] == PopWoken ==> s1.pcs[t] == PopLocked(true) && s1.tailLock == s.tailLock
  {
    s1 := Do(s, Step(t));
    InvStep(s, v, Step(t));
  }

  lemma FromTailRead<A, T>(s: State<A, T>, v: View<A, T>, t: Tid)
    requires Inv(s, v) && t < |s.pcs| && s.pcs[t].PopTailRead? && s.pcs[t].tl == s.mem.tail
    ensures PopEnds(s, v, t, s.pcs[t].w, 1)
  {
    var s1 := LooksOn(s, v, t);
    FromCompare(s1, v, t);
    PopStepFirst(s, v, t, s.pcs[t].w, 0);
  }

  lemma FromTailLocked<A, T>(s: State<A, T>, v: View<A, T>, t: Tid)
    requires Inv(s, v) && t < |s.pcs| && s.pcs[t].PopTailLocked?
    ensures PopEnds(s, v, t, s.pcs[t].w, 2)
  {
    var s1 := LooksOn(s, v, t);
    FromTailRead(s1, v, t);
    PopStepFirst(s, v, t, s.pcs[t].w, 1);
  }

  lemma FromLocked<A, T>(s: State<A, T>, v: View<A, T>, t: Tid)
    requires Inv(s, v) && t < |s.pcs| && s.pcs[t].PopLocked? && s.tailLock == None
    ensures PopEnds(s, v, t, s.pcs[t].w, 3)
  {
    var s1 := LooksOn(s, v, t);
    FromTailLocked(s1, v, t);
    PopStepFirst(s, v, t, s.pcs[t].w, 2);
  }

  lemma FromCalled<A, T>(s: State<A, T>, v: View<A, T>, t: Tid, w: bool)
    requires Inv(s, v) && t < |s.pcs| && s.headLock == None && s.tailLock == None
    requires s.pcs[t] == PopCalled(w) || (w && s.pcs[t] == PopWoken)
    ensures PopEnds(s, v, t, w, 4)
  {
    var s1 := LooksOn(s, v, t);
    FromLocked(s1, v, t);
    PopStepFirst(s, v, t, w, 3);
  }

  /** In every reachable state with both locks free, whatever the other threads are in the middle of: a
      pop called by an idle thread, followed by that thread's own steps, takes the front value in ten of
      them; on an empty queue a `try_pop` says so in six, and a `wait_and_pop` sleeps after five. */
  lemma PopAlone<A, T>(s0: State<A, T>, acts: seq<Action<A, T>>, t: Tid, w: bool)
    requires Init(s0) && Legal(s0, acts) && t < |Exec(s0, acts).pcs| && Exec(s0, acts).pcs[t] == Idle
    requires Exec(s0, acts).headLock == None && Exec(s0, acts).tailLock == None
    ensures var s, v := Exec(s0, acts), ViewAfter(s0, InitView(s0), acts);
      var s1 := Do(s, Invoke(t, PopOp(w)));
      && v.chain != []
      && (v.q != [] ==>
            Arrives(s1, v, t, 10, Returning(SQ.Popped(v.q[0])), None, None, View(v.chain[1..], v.q[1..])))
      && (v.q == [] && !w ==> Arrives(s1, v, t, 6, Returning(SQ.Empty), None, None, v))
      && (v.q == [] && w ==> Arrives(s1, v, t, 5, PopAsleep, None, None, v))
  {
    InvInit(s0);
    InvRun(s0, InitView(s0), acts);
    var s, v := Exec(s0, acts), ViewAfter(s0, InitView(s0), acts);
    InvStep(s, v, Invoke(t, PopOp(w)));
    FromCalled(Do(s, Invoke(t, PopOp(w))), v, t, w);
  }

  /** A woken consumer does the same. */
  lemma WokenPopAlone<A, T>(s0: State<A, T>, acts: seq<Action<A, T>>, t: Tid)
    requires Init(s0) && Legal(s0, acts) && t < |Exec(s0, acts).pcs| && Exec(s0, acts).pcs[t] == PopWoken
    requires Exec(s0, acts).headLock == None && Exec(s0, acts).tailLock == None
    ensures var s, v := Exec(s0, acts), ViewAfter(s0, InitView(s0), acts);
      && v.chain != []
      && (v.q != [] ==>
            Arrives(s, v, t, 10, Returning(SQ.Popped(v.q[0])), None, None, View(v.chain[1..], v.q[1..])))
      && (v.q == [] ==> Arrives(s, v, t, 5, PopAsleep, None, None, v))
  {
    InvInit(s0);
    InvRun(s0, InitView(s0), acts);
    FromCalled(Exec(s0, acts), ViewAfter(s0, InitView(s0), acts), t, true);
  }

  /** The five steps of a push after its allocation. */
  lemma Appends<A, T>(s: State<A, T>, v: View<A, T>, t: Tid)
    requires Inv(s, v) && t < |s.pcs| && s.pcs[t].PushReady? && s.tailLock == None
    ensures Arrives(s, v, t, 5, PushNotify, s.headLock, None, View(v.chain + [s.pcs[t].p], v.q + [s.pcs[t].v]))
  {
    var s1 := Do(s, Step(t));
    InvStep(s, v, Step(t));
    Writes(s1, v, t);
    StepFirst(s, v, t, 4, PushNotify, s.headLock, None, View(v.chain + [s.pcs[t].p], v.q + [s.pcs[t].v]));
  }

  lemma Writes<A, T>(s: State<A, T>, v: View<A, T>, t: Tid)
    requires Inv(s, v) && t < |s.pcs| && s.pcs[t].PushLocked?
    ensures Arrives(s, v, t, 4, PushNotify, s.headLock, None, View(v.chain + [s.pcs[t].p], v.q + [s.pcs[t].v]))
  {
    var v' := View(v.chain + [s.pcs[t].p], v.q + [s.pcs[t].v]);
    assert v.chain[|v.q|] in s.mem.heap;
    var s1 := Do(s, Step(t));
    InvStep(s, v, Step(t));
    assert v.chain[|v.q|] in s1.mem.heap;
    var s2 := Do(s1, Step(t));
    InvStep(s1, v, Step(t));
    Joins(s2, v, t);
    StepFirst(s1, v, t, 2, PushNotify, s.headLock, None, v');
    StepFirst(s, v, t, 3, PushNotify, s.headLock, None, v');
  }

  lemma Joins<A, T>(s: State<A, T>, v: View<A, T>, t: Tid)
    requires Inv(s, v) && t < |s.pcs| && s.pcs[t].PushLinked?
    ensures Arrives(s, v, t, 2, PushNotify, s.headLock, None, View(v.chain + [s.pcs[t].p], v.q + [s.pcs[t].v]))
  {
    var v' := View(v.chain + [s.pcs[t].p], v.q + [s.pcs[t].v]);
    var s1 := Do(s, Step(t));
    InvStep(s, v, Step(t));
    var s2 := Do(s1, Step(t));
    InvStep(s1, v', Step(t));
    NoSteps(s2, v', t);
    assert s2.pcs[t] == PushNotify;
    StepFirst(s1, v', t, 0, PushNotify, s.headLock, None, v');
    StepFirst(s, v, t, 1, PushNotify, s.headLock, None, v');
  }

  /** In every reachable state with the tail lock free, even while a popper holds the head lock: a push
      called by an idle thread, with any address not in use for its node, has appended its value after
      five steps of its own and only has to notify. */
  lemma PushAlone<A, T>(s0: State<A, T>, acts: seq<Action<A, T>>, t: Tid, x: T, p: A)
    requires Init(s0) && Legal(s0, acts) && t < |Exec(s0, acts).pcs| && Exec(s0, acts).pcs[t] == Idle
    requires Exec(s0, acts).tailLock == None && p !in Exec(s0, acts).mem.heap
    ensures var s, v := Exec(s0, acts), ViewAfter(s0, InitView(s0), acts);
      var s1 := Do(s, Invoke(t, SQ.Push(x)));
      && Enabled(s1, Alloc(t, p))
      && Arrives(Do(s1, Alloc(t, p)), v, t, 5, PushNotify, s.headLock, None, View(v.chain + [p], v.q + [x]))
  {
    InvInit(s0);
    InvRun(s0, InitView(s0), acts);
    var s, v := Exec(s0, acts), ViewAfter(s0, InitView(s0), acts);
    var s1 := Do(s, Invoke(t, SQ.Push(x)));
    InvStep(s, v, Invoke(t, SQ.Push(x)));
    InvStep(s1, v, Alloc(t, p));
    Appends(Do(s1, Alloc(t, p)), v, t);
  }
}
