/** What every run of the two-lock queue of src/OptimizedThreadSafeQueue.h keeps: node ownership, memory
    safety, freedom from deadlock, and that it refines the single-mutex queue. */
module TwoLockRuns {
  import opened Common
  import opened TwoLockQueue
  import SQ = SimpleQueue

  // ----- Memory safety and ownership -----

  /** Nodes a pusher may be writing: the dummy at `tail` while it holds the tail lock, and its
      own new node. */
  function MayWrite<A, T>(m: Mem<A, T>, pc: Pc<A, T>): set<A> {
    match pc
    case PushReady(_, p) => {p}
    case PushLocked(_, p) => {m.tail, p}
    case PushWritten(_, p) => {m.tail, p}
    case PushLinked(_, p) => {m.tail, p}
    case _ => {}
  }

  /** The node a popper past its emptiness check reads, unlinks or frees. */
  function MayPop<A, T>(m: Mem<A, T>, pc: Pc<A, T>): Option<A> {
    match pc
    case PopHave(_) => m.head
    case PopTaken(_, was) => Some(was)
    case PopAdvanced(_, was) => Some(was)
    case PopOut(_, was) => Some(was)
    case PopData(_, was, _) => Some(was)
    case _ => None
  }

  /** Whatever `tail` value a popper compared with, its node is disjoint from every node a pusher
      may be writing, and from every other popper's node. */
  lemma Ownership<A, T>(s0: State<A, T>, acts: seq<Action<A, T>>, t: Tid, u: Tid)
    requires Init(s0) && Legal(s0, acts)
    requires t != u && t < |s0.pcs| && u < |s0.pcs|
    ensures var s := Exec(s0, acts);
      && |s.pcs| == |s0.pcs|
      && MayWrite(s.mem, s.pcs[t]) * MayWrite(s.mem, s.pcs[u]) == {}
      && (MayPop(s.mem, s.pcs[t]).Some? ==>
            && MayPop(s.mem, s.pcs[t]).value !in MayWrite(s.mem, s.pcs[u])
            && MayPop(s.mem, s.pcs[t]) != MayPop(s.mem, s.pcs[u]))
  {
    InvInit(s0);
    InvRun(s0, InitView(s0), acts);
    SameThreads(s0, acts);
    OwnershipAt(Exec(s0, acts), ViewAfter(s0, InitView(s0), acts), t, u);
  }

  lemma OwnershipAt<A, T>(s: State<A, T>, v: View<A, T>, t: Tid, u: Tid)
    requires Inv(s, v) && t != u && t < |s.pcs| && u < |s.pcs|
    ensures MayWrite(s.mem, s.pcs[t]) * MayWrite(s.mem, s.pcs[u]) == {}
    ensures MayPop(s.mem, s.pcs[t]).Some? ==>
      && MayPop(s.mem, s.pcs[t]).value !in MayWrite(s.mem, s.pcs[u])
      && MayPop(s.mem, s.pcs[t]) != MayPop(s.mem, s.pcs[u])
  {
    PlaceOf(s, v, t);
    PlaceOf(s, v, u);
    OwnedApart(s, t, u);
    assert v.chain[|v.q|] in v.chain && v.chain[0] in v.chain;
    assert v.q != [] ==> v.chain[0] != v.chain[|v.q|];
  }

  /** Where a thread's nodes are: at the front, at the tail, or outside the chain. */
  lemma PlaceOf<A, T>(s: State<A, T>, v: View<A, T>, t: Tid)
    requires Inv(s, v) && t < |s.pcs|
    ensures Owned(s.pcs[t]).Some? ==> Owned(s.pcs[t]).value !in v.chain
    ensures MayPop(s.mem, s.pcs[t]).Some? ==>
      || MayPop(s.mem, s.pcs[t]) == Owned(s.pcs[t])
      || (v.q != [] && MayPop(s.mem, s.pcs[t]).value == v.chain[0] && s.headLock == Some(t))
    ensures forall x :: x in MayWrite(s.mem, s.pcs[t]) ==>
      Some(x) == Owned(s.pcs[t]) || (x == v.chain[|v.q|] && s.tailLock == Some(t))
  {
    assert ThreadOk(s.mem, v, s.pcs[t]);
    assert HoldsHead(s.pcs[t]) <==> s.headLock == Some(t);
    assert HoldsTail(s.pcs[t]) <==> s.tailLock == Some(t);
  }

  lemma {:induction false} SameThreads<A, T>(s: State<A, T>, acts: seq<Action<A, T>>)
    requires Legal(s, acts)
    ensures |Exec(s, acts).pcs| == |s.pcs|
    decreases |acts|
  {
    if acts != [] { SameThreads(Do(s, acts[0]), acts[1..]); }
  }

  /** No thread ever dereferences a freed or null node; the node a popper unlinks carries data and
      a non-null next; the node it frees has no successor left to free with it; and what it
      returns, `wait_and_pop` included, is never an empty optional. */
  lemma MemorySafe<A, T>(s0: State<A, T>, acts: seq<Action<A, T>>, t: Tid)
    requires Init(s0) && Legal(s0, acts) && t < |s0.pcs|
    ensures var s := Exec(s0, acts);
      && |s.pcs| == |s0.pcs|
      && !s.pcs[t].Crashed?
      && (Touches(s.mem, s.pcs[t]).Some? ==> Touches(s.mem, s.pcs[t]).value in s.mem.heap)
      && (s.pcs[t].PopTaken? ==> s.mem.heap[s.pcs[t].was].data.Some? && s.mem.heap[s.pcs[t].was].next.Some?)
      && (s.pcs[t].PopData? ==> s.mem.heap[s.pcs[t].was].next == None && s.pcs[t].d.Some?)
  {
    var v := InitView(s0);
    InvInit(s0);
    InvRun(s0, v, acts);
    SameThreads(s0, acts);
    var s, v' := Exec(s0, acts), ViewAfter(s0, v, acts);
    assert ThreadOk(s.mem, v', s.pcs[t]);
    assert HoldsHead(s.pcs[t]) <==> s.headLock == Some(t);
    if s.pcs[t].PopTaken? {
      assert HolderPc(s.headLock, s.pcs) == s.pcs[t];
      assert s.mem.heap[v'.chain[0]] == Cell(Some(v'.q[0]), Some(v'.chain[1]));
    }
  }

  // ----- The two locks never deadlock -----

  /** In the middle of an operation, and not asleep in it. */
  predicate Busy<A, T>(pc: Pc<A, T>) {
    !pc.Idle? && !pc.PushCalled? && !pc.PopAsleep?
  }

  /** The holder of the tail lock can always step; without one, the holder of the head lock. */
  lemma HolderSteps<A, T>(s: State<A, T>, v: View<A, T>, t: Tid)
    requires Inv(s, v) && t < |s.pcs| && (s.tailLock == Some(t) || (s.tailLock == None && s.headLock == Some(t)))
    ensures CanStep(s, s.pcs[t])
  {
    assert HoldsHead(s.pcs[t]) || HoldsTail(s.pcs[t]);
  }

  /** With both locks free, every busy thread can move. */
  lemma FreeLocksMove<A, T>(s: State<A, T>, v: View<A, T>, t: Tid) returns (a: Action<A, T>)
    requires Inv(s, v) && t < |s.pcs| && Busy(s.pcs[t]) && s.headLock == None && s.tailLock == None
    ensures Enabled(s, a) && (a.Step? || a.Notify? || a.Respond?)
  {
    assert ThreadOk(s.mem, v, s.pcs[t]);
    if s.pcs[t] == PushNotify {
      if u :| 0 <= u < |s.pcs| && s.pcs[u] == PopAsleep {
        a := Notify(t, Some(u));
      } else {
        a := Notify(t, None);
      }
    } else if s.pcs[t].Returning? {
      a := Respond(t);
    } else {
      a := Step(t);
    }
  }

  /** In every run: while any thread is in the middle of an operation and not asleep in it, some
      thread can take a step of its own, notify, or return, though poppers take one lock inside the
      other. */
  lemma NeverDeadlocked<A, T>(s0: State<A, T>, acts: seq<Action<A, T>>, t: Tid) returns (a: Action<A, T>)
    requires Init(s0) && Legal(s0, acts) && t < |Exec(s0, acts).pcs| && Busy(Exec(s0, acts).pcs[t])
    ensures Enabled(Exec(s0, acts), a) && (a.Step? || a.Notify? || a.Respond?)
  {
    InvInit(s0);
    InvRun(s0, InitView(s0), acts);
    var s, v := Exec(s0, acts), ViewAfter(s0, InitView(s0), acts);
    if s.tailLock.Some? {
      HolderSteps(s, v, s.tailLock.value);
      a := Step(s.tailLock.value);
    } else if s.headLock.Some? {
      HolderSteps(s, v, s.headLock.value);
      a := Step(s.headLock.value);
    } else {
      a := FreeLocksMove(s, v, t);
    }
  }

  // ----- Refinement of the simple queue -----

  /** The simple queue's program counter.  A try_pop that has read a `tail` equal to `head` has
      already answered; a pop that has advanced `head` has already answered with its node's data. */
  function AbsPc<A, T>(m: Mem<A, T>, pc: Pc<A, T>): SQ.Pc<T> {
    match pc
    case Idle => SQ.Idle
    case PushCalled(v) => SQ.Called(SQ.Push(v))
    case PushReady(v, _) => SQ.Called(SQ.Push(v))
    case PushLocked(v, _) => SQ.Called(SQ.Push(v))
    case PushWritten(v, _) => SQ.Called(SQ.Push(v))
    case PushLinked(v, _) => SQ.Called(SQ.Push(v))
    case PushMoved => SQ.Returning(SQ.Pushed)
    case PushNotify => SQ.Returning(SQ.Pushed)
    case PopCalled(w) => SQ.Called(PopOp(w))
    case PopLocked(w) => SQ.Called(PopOp(w))
    case PopTailLocked(w) => SQ.Called(PopOp(w))
    case PopTailRead(w, tl) => if !w && m.head == Some(tl) then SQ.Returning(SQ.Empty) else SQ.Called(PopOp(w))
    case PopCompare(w, tl) => if !w && m.head == Some(tl) then SQ.Returning(SQ.Empty) else SQ.Called(PopOp(w))
    case PopEmpty => SQ.Returning(SQ.Empty)
    case PopHave(w) => SQ.Called(PopOp(w))
    case PopTaken(w, _) => SQ.Called(PopOp(w))
    case PopAdvanced(_, was) => SQ.Returning(FromNode(m, was))
    case PopOut(_, was) => SQ.Returning(FromNode(m, was))
    case PopData(_, _, d) => SQ.Returning(FromOptional(d))
    case PopAsleep => SQ.Called(SQ.WaitPop)
    case PopWoken => SQ.Called(SQ.WaitPop)
    case Returning(r) => SQ.Returning(r)
    case Crashed => SQ.Idle
  }

  function PopOp<T>(w: bool): SQ.Op<T> {
    if w then SQ.WaitPop else SQ.TryPop
  }

  function FromNode<A, T>(m: Mem<A, T>, a: A): SQ.Resp<T> {
    if a in m.heap then FromOptional(m.heap[a].data) else SQ.Empty
  }

  ghost function Abs<A, T>(s: State<A, T>, v: View<A, T>): SQ.State<T> {
    SQ.State(v.q, seq(|s.pcs|, t requires 0 <= t < |s.pcs| => AbsPc(s.mem, s.pcs[t])))
  }

  /** The simple queue's action that a step stands for, if any: the linearization points. */
  ghost function AbsAction<A, T>(s: State<A, T>, a: Action<A, T>): Option<SQ.Action<T>>
    requires Enabled(s, a)
  {
    match a
    case Invoke(t, op) => Some(SQ.Invoke(t, op))
    case Respond(t) => Some(SQ.Respond(t))
    case Step(t) =>
      var pc := s.pcs[t];
      if pc.PushLinked? || pc.PopTaken? || (pc.PopTailLocked? && !pc.w && s.mem.head == Some(s.mem.tail))
      then Some(SQ.Section(t, None)) else None
    case _ => None
  }

  /** Other threads look the same to the simple queue after a step of t. */
  lemma OthersLookSame<A, T>(s: State<A, T>, v: View<A, T>, a: Action<A, T>, u: Tid)
    requires Inv(s, v) && Enabled(s, a) && u < |s.pcs| && u != a.t
    ensures |Do(s, a).pcs| == |s.pcs| && AbsPc(Do(s, a).mem, Do(s, a).pcs[u]) == AbsPc(s.mem, s.pcs[u])
  {
    assert ThreadOk(s.mem, v, s.pcs[u]) && ThreadOk(s.mem, v, s.pcs[a.t]);
    if a.Step? {
      HeadStable(s, a.t, u);
      NodeStable(s, v, a.t, u);
    }
  }

  lemma HeadStable<A, T>(s: State<A, T>, t: Tid, u: Tid)
    requires LocksOk(s) && t < |s.pcs| && u < |s.pcs| && u != t && CanStep(s, s.pcs[t])
    ensures HoldsHead(s.pcs[u]) ==> StepOf(s, t).0.head == s.mem.head
  {
    assert HoldsHead(s.pcs[t]) ==> s.headLock == Some(t);
  }

  lemma NodeStable<A, T>(s: State<A, T>, v: View<A, T>, t: Tid, u: Tid)
    requires Inv(s, v) && t < |s.pcs| && u < |s.pcs| && u != t && CanStep(s, s.pcs[t])
    ensures s.pcs[u].PopAdvanced? || s.pcs[u].PopOut? ==>
      var x := s.pcs[u].was;
      x in s.mem.heap && x in StepOf(s, t).0.heap && StepOf(s, t).0.heap[x] == s.mem.heap[x]
  {
    PlaceOf(s, v, t);
    PlaceOf(s, v, u);
    assert ThreadOk(s.mem, v, s.pcs[u]);
    assert v.chain[|v.q|] in v.chain && v.chain[0] in v.chain;
    OwnedApart(s, t, u);
  }

  /** Thread t's own part of a step, as the simple queue sees it: nothing, or one critical section. */
  ghost predicate OwnPart<A, T>(s: State<A, T>, v: View<A, T>, t: Tid)
    requires t < |s.pcs| && CanStep(s, s.pcs[t])
  {
    var (m', _, _, pc') := StepOf(s, t);
    var before, after, q' := AbsPc(s.mem, s.pcs[t]), AbsPc(m', pc'), NextView(s, v, Step(t)).q;
    if AbsAction(s, Step(t)) == None then after == before && q' == v.q
    else before.Called? && after.Returning? && SQ.Critical(v.q, before.op) == (q', Some(after.r))
  }

  lemma PushTakesEffect<A, T>(s: State<A, T>, v: View<A, T>, t: Tid)
    requires Inv(s, v) && t < |s.pcs| && s.pcs[t].PushLinked?
    ensures OwnPart(s, v, t)
  {
  }

  lemma PopTakesEffect<A, T>(s: State<A, T>, v: View<A, T>, t: Tid)
    requires Inv(s, v) && t < |s.pcs| && s.pcs[t].PopTaken?
    ensures OwnPart(s, v, t)
  {
    assert ThreadOk(s.mem, v, s.pcs[t]) && HoldsHead(s.pcs[t]);
    assert HolderPc(s.headLock, s.pcs) == s.pcs[t];
    assert s.mem.heap[v.chain[0]] == Cell(Some(v.q[0]), Some(v.chain[1]));
  }

  lemma TailReadTakesEffect<A, T>(s: State<A, T>, v: View<A, T>, t: Tid)
    requires Inv(s, v) && t < |s.pcs| && s.pcs[t].PopTailLocked?
    ensures OwnPart(s, v, t)
  {
    assert ThreadOk(s.mem, v, s.pcs[t]) && HoldsHead(s.pcs[t]);
    assert HolderPc(s.headLock, s.pcs) == s.pcs[t];
    assert v.q != [] ==> v.chain[0] != v.chain[|v.q|];
  }

  lemma NoEffect<A, T>(s: State<A, T>, v: View<A, T>, t: Tid)
    requires Inv(s, v) && t < |s.pcs| && CanStep(s, s.pcs[t])
    requires !s.pcs[t].PushLinked? && !s.pcs[t].PopTaken? && !s.pcs[t].PopTailLocked?
    ensures OwnPart(s, v, t)
  {
    assert ThreadOk(s.mem, v, s.pcs[t]);
    if s.pcs[t].PopHave? {
      assert HoldsHead(s.pcs[t]) && HolderPc(s.headLock, s.pcs) == s.pcs[t];
    } else if s.pcs[t].PushLocked? || s.pcs[t].PushWritten? {
      assert v.chain[|v.q|] in s.mem.heap;
    } else {
      PopperUnseen(s, v, t);
    }
  }

  lemma PopperUnseen<A, T>(s: State<A, T>, v: View<A, T>, t: Tid)
    requires t < |s.pcs| && ThreadOk(s.mem, v, s.pcs[t]) && CanStep(s, s.pcs[t])
    requires !s.pcs[t].PushLinked? && !s.pcs[t].PopTaken? && !s.pcs[t].PopTailLocked?
    requires !s.pcs[t].PopHave? && !s.pcs[t].PushLocked? && !s.pcs[t].PushWritten?
    ensures OwnPart(s, v, t)
  {
  }

  lemma OwnStep<A, T>(s: State<A, T>, v: View<A, T>, t: Tid)
    requires Inv(s, v) && t < |s.pcs| && CanStep(s, s.pcs[t])
    ensures OwnPart(s, v, t)
  {
    match s.pcs[t]
    case PushLinked(_, _) => PushTakesEffect(s, v, t);
    case PopTaken(_, _) => PopTakesEffect(s, v, t);
    case PopTailLocked(_) => TailReadTakesEffect(s, v, t);
    case _ => NoEffect(s, v, t);
  }

  ghost predicate Simulated<A, T>(s: State<A, T>, v: View<A, T>, a: Action<A, T>)
    requires Enabled(s, a)
  {
    var q, q', b := Abs(s, v), Abs(Do(s, a), NextView(s, v, a)), AbsAction(s, a);
    if b == None then q' == q && EventOf(s, a) == []
    else SQ.Enabled(q, b.value) && SQ.Do(q, b.value) == q' && SQ.EventOf(q, b.value) == EventOf(s, a)
  }

  /** All threads but t look unchanged, and none looks asleep. */
  lemma OnlyOneMoves<A, T>(s: State<A, T>, v: View<A, T>, a: Action<A, T>)
    requires Inv(s, v) && Enabled(s, a)
    ensures var q, q' := Abs(s, v), Abs(Do(s, a), NextView(s, v, a));
      && |q.pcs| == |q'.pcs| == |s.pcs|
      && q'.pcs == q.pcs[a.t := q'.pcs[a.t]]
      && !SQ.SomeoneAsleep(q)
  {
    var q, q' := Abs(s, v), Abs(Do(s, a), NextView(s, v, a));
    assert |Do(s, a).pcs| == |s.pcs|;
    forall u | 0 <= u < |s.pcs| && u != a.t ensures q'.pcs[u] == q.pcs[u] {
      OthersLookSame(s, v, a, u);
    }
    forall u | 0 <= u < |s.pcs| ensures q.pcs[u] != SQ.Asleep {
      NeverAsleep(s.mem, s.pcs[u]);
    }
  }

  lemma NeverAsleep<A, T>(m: Mem<A, T>, pc: Pc<A, T>)
    ensures AbsPc(m, pc) != SQ.Asleep
  {
  }

  lemma Simulates<A, T>(s: State<A, T>, v: View<A, T>, a: Action<A, T>)
    requires Inv(s, v) && Enabled(s, a)
    ensures Simulated(s, v, a)
  {
    OnlyOneMoves(s, v, a);
    if a.Step? {
      StepSimulated(s, v, a.t);
    } else {
      OutsideSimulated(s, v, a);
    }
  }

  lemma StepSimulated<A, T>(s: State<A, T>, v: View<A, T>, t: Tid)
    requires Inv(s, v) && Enabled(s, Step(t))
    ensures Simulated(s, v, Step(t))
  {
    OnlyOneMoves(s, v, Step(t));
    OwnStep(s, v, t);
    var q, q' := Abs(s, v), Abs(Do(s, Step(t)), NextView(s, v, Step(t)));
    assert q.pcs[t] == AbsPc(s.mem, s.pcs[t]);
    assert q'.pcs[t] == AbsPc(StepOf(s, t).0, StepOf(s, t).3);
    if AbsAction(s, Step(t)) == None {
      assert q'.pcs == q.pcs;
    }
  }

  lemma OutsideSimulated<A, T>(s: State<A, T>, v: View<A, T>, a: Action<A, T>)
    requires Inv(s, v) && Enabled(s, a) && !a.Step?
    ensures Simulated(s, v, a)
  {
    OnlyOneMoves(s, v, a);
    OutsideOwn(s, v, a);
    var q, q' := Abs(s, v), Abs(Do(s, a), NextView(s, v, a));
    assert q.pcs[a.t] == AbsPc(s.mem, s.pcs[a.t]) && q'.pcs[a.t] == AbsPc(Do(s, a).mem, Do(s, a).pcs[a.t]);
    if AbsAction(s, a) == None {
      assert q'.pcs == q.pcs;
    }
  }

  lemma OutsideOwn<A, T>(s: State<A, T>, v: View<A, T>, a: Action<A, T>)
    requires Inv(s, v) && Enabled(s, a) && !a.Step?
    ensures var before, after := AbsPc(s.mem, s.pcs[a.t]), AbsPc(Do(s, a).mem, Do(s, a).pcs[a.t]);
      match a
      case Invoke(_, op) => before == SQ.Idle && after == SQ.Called(op)
      case Respond(_) => before == SQ.Returning(s.pcs[a.t].r) && after == SQ.Idle
      case _ => after == before
    ensures NextView(s, v, a) == v
  {
  }

  ghost function AbsRun<A, T>(s: State<A, T>, acts: seq<Action<A, T>>): seq<SQ.Action<T>>
    requires Legal(s, acts)
    decreases |acts|
  {
    if acts == [] then []
    else
      var rest := AbsRun(Do(s, acts[0]), acts[1..]);
      var b := AbsAction(s, acts[0]);
      if b == None then rest else [b.value] + rest
  }

  lemma {:induction false} RefinesFrom<A, T>(s: State<A, T>, v: View<A, T>, acts: seq<Action<A, T>>)
    requires Inv(s, v) && Legal(s, acts)
    ensures SQ.Legal(Abs(s, v), AbsRun(s, acts))
    ensures SQ.Trace(Abs(s, v), AbsRun(s, acts)) == Trace(s, acts)
    ensures SQ.Exec(Abs(s, v), AbsRun(s, acts)) == Abs(Exec(s, acts), ViewAfter(s, v, acts))
    decreases |acts|
  {
    if acts != [] {
      Simulates(s, v, acts[0]);
      InvStep(s, v, acts[0]);
      RefinesFrom(Do(s, acts[0]), NextView(s, v, acts[0]), acts[1..]);
      var b, rest := AbsAction(s, acts[0]), AbsRun(Do(s, acts[0]), acts[1..]);
      if b != None {
        assert AbsRun(s, acts)[1..] == rest;
      }
    }
  }

  /** Every run of the two-lock queue shows its callers a history of the simple queue, in which
      each operation takes effect in one atomic critical section between its call and its return. */
  lemma Linearizable<A, T>(s0: State<A, T>, acts: seq<Action<A, T>>)
    requires Init(s0) && Legal(s0, acts)
    ensures exists q0: SQ.State<T>, b ::
      && SQ.Init(q0) && |q0.pcs| == |s0.pcs|
      && SQ.Legal(q0, b) && SQ.Trace(q0, b) == Trace(s0, acts)
  {
    InvInit(s0);
    RefinesFrom(s0, InitView(s0), acts);
    var q0 := Abs(s0, InitView(s0));
    assert SQ.Init(q0) && |q0.pcs| == |s0.pcs|;
    assert SQ.Legal(q0, AbsRun(s0, acts)) && SQ.Trace(q0, AbsRun(s0, acts)) == Trace(s0, acts);
  }
}
