/** The two-lock linked queue of src/OptimizedThreadSafeQueue.h.

    Every access to shared memory is a step of its own: taking and dropping each mutex, writing
    the data of the old dummy, linking the new one, moving `tail`, reading `tail`, comparing,
    moving `head` out, moving `next` into `head`, reading the popped data and freeing the node.
    Nodes live in a heap whose addresses may be reused after a free; dereferencing an address
    that is not allocated crashes the thread. */
module TwoLockQueue {
  import opened Common
  import SQ = SimpleQueue

  datatype Cell<A, T> = Cell(data: Option<T>, next: Option<A>)

  /** The queue object: its nodes, `head` (None while moved from) and `tail`. */
  datatype Mem<A, T> = Mem(heap: map<A, Cell<A, T>>, head: Option<A>, tail: A)

  // ----- What each statement does to the memory -----

  function AllocNode<A, T>(m: Mem<A, T>, p: A): Mem<A, T> {
    m.(heap := m.heap[p := Cell(None, None)])
  }

  /** `tail->data = std::move(new_value)` */
  function WriteData<A, T>(m: Mem<A, T>, v: T): Mem<A, T>
    requires m.tail in m.heap
  {
    m.(heap := m.heap[m.tail := m.heap[m.tail].(data := Some(v))])
  }

  /** `tail->next = std::move(p)` */
  function LinkNext<A, T>(m: Mem<A, T>, p: A): Mem<A, T>
    requires m.tail in m.heap
  {
    m.(heap := m.heap[m.tail := m.heap[m.tail].(next := Some(p))])
  }

  /** `tail = new_tail` */
  function MoveTail<A, T>(m: Mem<A, T>, p: A): Mem<A, T> {
    m.(tail := p)
  }

  /** `old_head = std::move(head)` */
  function TakeHead<A, T>(m: Mem<A, T>): Mem<A, T> {
    m.(head := None)
  }

  /** `head = std::move(old_head->next)` */
  function AdvanceHead<A, T>(m: Mem<A, T>, was: A): Mem<A, T>
    requires was in m.heap
  {
    m.(head := m.heap[was].next, heap := m.heap[was := m.heap[was].(next := None)])
  }

  /** The destructor of the popped node, whose `next` is null. */
  function FreeNode<A, T>(m: Mem<A, T>, was: A): Mem<A, T> {
    m.(heap := m.heap - {was})
  }

  // ----- Threads -----

  /** `w` tells `wait_and_pop` from `try_pop`; `tl` is the value of `tail` the popper read. */
  datatype Pc<A, T> =
    | Idle
    | PushCalled(v: T)
    | PushReady(v: T, p: A)
    | PushLocked(v: T, p: A)
    | PushWritten(v: T, p: A)
    | PushLinked(v: T, p: A)
    | PushMoved
    | PushNotify
    | PopCalled(w: bool)
    | PopLocked(w: bool)
    | PopTailLocked(w: bool)
    | PopTailRead(w: bool, tl: A)
    | PopCompare(w: bool, tl: A)
    | PopEmpty
    | PopHave(w: bool)
    | PopTaken(w: bool, was: A)
    | PopAdvanced(w: bool, was: A)
    | PopOut(w: bool, was: A)
    | PopData(w: bool, was: A, d: Option<T>)
    | PopAsleep
    | PopWoken
    | Returning(r: SQ.Resp<T>)
    | Crashed

  datatype State<A, T> = State(
    mem: Mem<A, T>,
    headLock: Option<Tid>,
    tailLock: Option<Tid>,
    pcs: seq<Pc<A, T>>)

  datatype Action<A, T> =
    | Invoke(t: Tid, op: SQ.Op<T>)
    | Alloc(t: Tid, p: A)
    | Step(t: Tid)
    | Notify(t: Tid, wake: Option<Tid>)
    | Spurious(t: Tid)
    | Respond(t: Tid)

  predicate HoldsHead<A, T>(pc: Pc<A, T>) {
    pc.PopLocked? || pc.PopTailLocked? || pc.PopTailRead? || pc.PopCompare? || pc.PopEmpty?
    || pc.PopHave? || pc.PopTaken? || pc.PopAdvanced?
  }

  predicate HoldsTail<A, T>(pc: Pc<A, T>) {
    pc.PushLocked? || pc.PushWritten? || pc.PushLinked? || pc.PushMoved?
    || pc.PopTailLocked? || pc.PopTailRead?
  }

  /** The node a thread's next step dereferences. */
  function Touches<A, T>(m: Mem<A, T>, pc: Pc<A, T>): Option<A> {
    match pc
    case PushLocked(_, _) => Some(m.tail)
    case PushWritten(_, _) => Some(m.tail)
    case PopTaken(_, was) => Some(was)
    case PopOut(_, was) => Some(was)
    case PopData(_, was, _) => Some(was)
    case _ => None
  }

  ghost predicate Init<A, T>(s: State<A, T>) {
    && s.mem == Mem(map[s.mem.tail := Cell(None, None)], Some(s.mem.tail), s.mem.tail)
    && s.headLock == None && s.tailLock == None
    && forall t :: 0 <= t < |s.pcs| ==> s.pcs[t] == Idle
  }

  ghost predicate SomeoneAsleep<A, T>(s: State<A, T>) {
    exists u :: 0 <= u < |s.pcs| && s.pcs[u] == PopAsleep
  }

  predicate CanStep<A, T>(s: State<A, T>, pc: Pc<A, T>) {
    match pc
    case PushReady(_, _) => s.tailLock == None
    case PopCalled(_) => s.headLock == None
    case PopWoken => s.headLock == None
    case PopLocked(_) => s.tailLock == None
    case _ => !(pc.Idle? || pc.PushCalled? || pc.PushNotify? || pc.PopAsleep? || pc.Returning? || pc.Crashed?)
  }

  ghost predicate Enabled<A, T>(s: State<A, T>, a: Action<A, T>) {
    a.t < |s.pcs| &&
    match a
    case Invoke(t, _) => s.pcs[t] == Idle
    case Alloc(t, p) => s.pcs[t].PushCalled? && p !in s.mem.heap
    case Step(t) => CanStep(s, s.pcs[t])
    case Notify(t, wake) =>
      && s.pcs[t] == PushNotify
      && (match wake
          case None => !SomeoneAsleep(s)
          case Some(u) => u < |s.pcs| && s.pcs[u] == PopAsleep)
    case Spurious(t) => s.pcs[t] == PopAsleep
    case Respond(t) => s.pcs[t].Returning?
  }

  function Called<A, T>(op: SQ.Op<T>): Pc<A, T> {
    match op
    case Push(v) => PushCalled(v)
    case TryPop => PopCalled(false)
    case WaitPop => PopCalled(true)
  }

  function FromOptional<T>(d: Option<T>): SQ.Resp<T> {
    if d.Some? then SQ.Popped(d.value) else SQ.Empty
  }

  /** One step of thread t: new memory, new locks, new program counter. */
  function StepOf<A, T>(s: State<A, T>, t: Tid): (Mem<A, T>, Option<Tid>, Option<Tid>, Pc<A, T>)
    requires t < |s.pcs| && CanStep(s, s.pcs[t])
  {
    var (m, hl, tl) := (s.mem, s.headLock, s.tailLock);
    var x := Touches(m, s.pcs[t]);
    if x.Some? && x.value !in m.heap then (m, hl, tl, Crashed)
    else match s.pcs[t]
      case PushReady(v, p) => (m, hl, Some(t), PushLocked(v, p))
      case PushLocked(v, p) => (WriteData(m, v), hl, tl, PushWritten(v, p))
      case PushWritten(v, p) => (LinkNext(m, p), hl, tl, PushLinked(v, p))
      case PushLinked(v, p) => (MoveTail(m, p), hl, tl, PushMoved)
      case PushMoved => (m, hl, None, PushNotify)
      case PopCalled(w) => (m, Some(t), tl, PopLocked(w))
      case PopWoken => (m, Some(t), tl, PopLocked(true))
      case PopLocked(w) => (m, hl, Some(t), PopTailLocked(w))
      case PopTailLocked(w) => (m, hl, tl, PopTailRead(w, m.tail))
      case PopTailRead(w, x) => (m, hl, None, PopCompare(w, x))
      case PopCompare(w, x) =>
        if m.head != Some(x) then (m, hl, tl, PopHave(w))
        else if w then (m, None, tl, PopAsleep)
        else (m, hl, tl, PopEmpty)
      case PopEmpty => (m, None, tl, Returning(SQ.Empty))
      case PopHave(w) =>
        if m.head.Some? then (TakeHead(m), hl, tl, PopTaken(w, m.head.value)) else (m, hl, tl, Crashed)
      case PopTaken(w, was) => (AdvanceHead(m, was), hl, tl, PopAdvanced(w, was))
      case PopAdvanced(w, was) => (m, None, tl, PopOut(w, was))
      case PopOut(w, was) => (m, hl, tl, PopData(w, was, m.heap[was].data))
      case PopData(w, was, d) => (FreeNode(m, was), hl, tl, Returning(FromOptional(d)))
  }

  ghost function Do<A, T>(s: State<A, T>, a: Action<A, T>): State<A, T>
    requires Enabled(s, a)
  {
    match a
    case Invoke(t, op) => s.(pcs := s.pcs[t := Called(op)])
    case Alloc(t, p) => s.(mem := AllocNode(s.mem, p), pcs := s.pcs[t := PushReady(s.pcs[t].v, p)])
    case Step(t) =>
      var (m, hl, tl, pc) := StepOf(s, t);
      State(m, hl, tl, s.pcs[t := pc])
    case Notify(t, wake) =>
      var pcs := if wake.Some? then s.pcs[wake.value := PopWoken] else s.pcs;
      s.(pcs := pcs[t := Returning(SQ.Pushed)])
    case Spurious(t) => s.(pcs := s.pcs[t := PopWoken])
    case Respond(t) => s.(pcs := s.pcs[t := Idle])
  }

  ghost predicate Legal<A, T>(s: State<A, T>, acts: seq<Action<A, T>>)
    decreases |acts|
  {
    acts == [] || (Enabled(s, acts[0]) && Legal(Do(s, acts[0]), acts[1..]))
  }

  ghost function Exec<A, T>(s: State<A, T>, acts: seq<Action<A, T>>): State<A, T>
    requires Legal(s, acts)
    decreases |acts|
  {
    if acts == [] then s else Exec(Do(s, acts[0]), acts[1..])
  }

  lemma Prepend<A, T>(s: State<A, T>, a: Action<A, T>, rest: seq<Action<A, T>>)
    requires Enabled(s, a) && Legal(Do(s, a), rest)
    ensures Legal(s, [a] + rest) && Exec(s, [a] + rest) == Exec(Do(s, a), rest)
  {
    assert ([a] + rest)[1..] == rest;
  }

  ghost function EventOf<A, T>(s: State<A, T>, a: Action<A, T>): seq<SQ.Event<T>>
    requires Enabled(s, a)
  {
    match a
    case Invoke(t, op) => [SQ.Call(t, op)]
    case Respond(t) => [SQ.Return(t, s.pcs[t].r)]
    case _ => []
  }

  ghost function Trace<A, T>(s: State<A, T>, acts: seq<Action<A, T>>): seq<SQ.Event<T>>
    requires Legal(s, acts)
    decreases |acts|
  {
    if acts == [] then [] else EventOf(s, acts[0]) + Trace(Do(s, acts[0]), acts[1..])
  }

  // ----- The invariant -----

  /** The logical contents: the addresses from the front node to `tail`, and the queued values. */
  datatype View<A, T> = View(chain: seq<A>, q: seq<T>)

  ghost predicate ChainOk<A, T>(m: Mem<A, T>, v: View<A, T>) {
    && |v.chain| == |v.q| + 1
    && (forall i, j :: 0 <= i < j < |v.chain| ==> v.chain[i] != v.chain[j])
    && (forall i :: 0 <= i < |v.chain| ==> v.chain[i] in m.heap)
    && (forall i :: 0 <= i < |v.q| ==> m.heap[v.chain[i]] == Cell(Some(v.q[i]), Some(v.chain[i + 1])))
    && m.tail == v.chain[|v.q|]
  }

  function HolderPc<A, T>(lock: Option<Tid>, pcs: seq<Pc<A, T>>): Pc<A, T> {
    if lock.Some? && lock.value < |pcs| then pcs[lock.value] else Idle
  }

  /** The front of the chain: `head`, or what its holder has just moved out of `head`. */
  function FrontOf<A, T>(m: Mem<A, T>, holder: Pc<A, T>): Option<A> {
    if holder.PopTaken? then Some(holder.was) else m.head
  }

  function TailCell<A, T>(holder: Pc<A, T>): Cell<A, T> {
    match holder
    case PushWritten(v, _) => Cell(Some(v), None)
    case PushLinked(v, p) => Cell(Some(v), Some(p))
    case _ => Cell(None, None)
  }

  ghost predicate EndsOk<A, T>(s: State<A, T>, v: View<A, T>)
    requires ChainOk(s.mem, v)
  {
    && FrontOf(s.mem, HolderPc(s.headLock, s.pcs)) == Some(v.chain[0])
    && s.mem.heap[s.mem.tail] == TailCell(HolderPc(s.tailLock, s.pcs))
  }

  ghost predicate LocksOk<A, T>(s: State<A, T>) {
    && (s.headLock.Some? ==> s.headLock.value < |s.pcs|)
    && (s.tailLock.Some? ==> s.tailLock.value < |s.pcs|)
    && (forall t :: 0 <= t < |s.pcs| ==> (HoldsHead(s.pcs[t]) <==> s.headLock == Some(t)))
    && (forall t :: 0 <= t < |s.pcs| ==> (HoldsTail(s.pcs[t]) <==> s.tailLock == Some(t)))
  }

  /** The node only this thread knows: not yet linked, or already unlinked. */
  function Owned<A, T>(pc: Pc<A, T>): Option<A> {
    match pc
    case PushReady(_, p) => Some(p)
    case PushLocked(_, p) => Some(p)
    case PushWritten(_, p) => Some(p)
    case PushLinked(_, p) => Some(p)
    case PopAdvanced(_, was) => Some(was)
    case PopOut(_, was) => Some(was)
    case PopData(_, was, _) => Some(was)
    case _ => None
  }

  ghost predicate ThreadOk<A, T>(m: Mem<A, T>, v: View<A, T>, pc: Pc<A, T>) {
    && !pc.Crashed?
    && (Owned(pc).Some? ==> Owned(pc).value in m.heap && Owned(pc).value !in v.chain)
    && match pc
       case PushReady(_, p) => m.heap[p] == Cell(None, None)
       case PushLocked(_, p) => m.heap[p] == Cell(None, None)
       case PushWritten(_, p) => m.heap[p] == Cell(None, None)
       case PushLinked(_, p) => m.heap[p] == Cell(None, None)
       case PopTailRead(_, tl) => tl in v.chain
       case PopCompare(_, tl) => tl in v.chain
       case PopHave(_) => v.q != []
       case PopTaken(_, was) => v.q != [] && m.head == None
       case PopAdvanced(_, was) => m.heap[was].data.Some? && m.heap[was].next == None
       case PopOut(_, was) => m.heap[was].data.Some? && m.heap[was].next == None
       case PopData(_, was, d) => d.Some? && m.heap[was] == Cell(d, None)
       case _ => true
  }

  ghost predicate OwnedDistinct<A, T>(s: State<A, T>) {
    forall t, u :: 0 <= t < u < |s.pcs| && Owned(s.pcs[t]).Some? ==> Owned(s.pcs[t]) != Owned(s.pcs[u])
  }

  lemma OwnedApart<A, T>(s: State<A, T>, t: Tid, u: Tid)
    requires OwnedDistinct(s) && t != u && t < |s.pcs| && u < |s.pcs|
    ensures Owned(s.pcs[t]).Some? ==> Owned(s.pcs[t]) != Owned(s.pcs[u])
  {
    if u < t { assert Owned(s.pcs[u]).Some? ==> Owned(s.pcs[u]) != Owned(s.pcs[t]); }
  }

  ghost predicate Inv<A, T>(s: State<A, T>, v: View<A, T>) {
    && LocksOk(s)
    && ChainOk(s.mem, v)
    && EndsOk(s, v)
    && (forall t :: 0 <= t < |s.pcs| ==> ThreadOk(s.mem, v, s.pcs[t]))
    && OwnedDistinct(s)
  }

  /** How a step changes the logical contents: a push takes effect when `tail` moves, a pop when
      `next` moves into `head`. */
  ghost function NextView<A, T>(s: State<A, T>, v: View<A, T>, a: Action<A, T>): View<A, T>
    requires Enabled(s, a)
  {
    if a.Step? && s.pcs[a.t].PushLinked? then View(v.chain + [s.pcs[a.t].p], v.q + [s.pcs[a.t].v])
    else if a.Step? && s.pcs[a.t].PopTaken? && v.q != [] && v.chain != [] then View(v.chain[1..], v.q[1..])
    else v
  }

  /** Who holds a lock after a step of t, given what t's program counter says. */
  predicate LockMoves(lock: Option<Tid>, lock': Option<Tid>, t: Tid, before: bool, after: bool) {
    && (after ==> lock' == Some(t))
    && (!after ==> lock' == if before then None else lock)
    && (after && !before ==> lock == None)
  }

  lemma StepLocks<A, T>(s: State<A, T>, t: Tid)
    requires LocksOk(s) && t < |s.pcs| && CanStep(s, s.pcs[t]) && !StepOf(s, t).3.Crashed?
    ensures LockMoves(s.headLock, StepOf(s, t).1, t, HoldsHead(s.pcs[t]), HoldsHead(StepOf(s, t).3))
    ensures LockMoves(s.tailLock, StepOf(s, t).2, t, HoldsTail(s.pcs[t]), HoldsTail(StepOf(s, t).3))
  {
  }

  lemma LocksKept<A, T>(s: State<A, T>, s': State<A, T>, t: Tid)
    requires LocksOk(s) && t < |s.pcs| == |s'.pcs|
    requires forall u :: 0 <= u < |s.pcs| && u != t ==>
      HoldsHead(s.pcs[u]) == HoldsHead(s'.pcs[u]) && HoldsTail(s.pcs[u]) == HoldsTail(s'.pcs[u])
    requires LockMoves(s.headLock, s'.headLock, t, HoldsHead(s.pcs[t]), HoldsHead(s'.pcs[t]))
    requires LockMoves(s.tailLock, s'.tailLock, t, HoldsTail(s.pcs[t]), HoldsTail(s'.pcs[t]))
    ensures LocksOk(s')
  {
  }

  /** What a thread must not notice about another thread's step. */
  ghost predicate Unnoticed<A, T>(m: Mem<A, T>, m': Mem<A, T>, v': View<A, T>, pc: Pc<A, T>) {
    && (Owned(pc).Some? && Owned(pc).value in m.heap ==>
          var x := Owned(pc).value;
          x in m'.heap && m'.heap[x] == m.heap[x] && x !in v'.chain)
    && (pc.PopTailRead? ==> pc.tl in v'.chain)
    && (pc.PopCompare? ==> pc.tl in v'.chain)
    && (pc.PopHave? ==> v'.q != [])
    && (pc.PopTaken? ==> v'.q != [] && m'.head == m.head)
  }

  lemma ThreadsKept<A, T>(s: State<A, T>, v: View<A, T>, s': State<A, T>, v': View<A, T>, t: Tid)
    requires forall u :: 0 <= u < |s.pcs| ==> ThreadOk(s.mem, v, s.pcs[u])
    requires OwnedDistinct(s)
    requires t < |s.pcs| == |s'.pcs| && s'.pcs == s.pcs[t := s'.pcs[t]] && ThreadOk(s'.mem, v', s'.pcs[t])
    requires forall u :: 0 <= u < |s.pcs| && u != t ==> Unnoticed(s.mem, s'.mem, v', s.pcs[u])
    requires Owned(s'.pcs[t]) == None || Owned(s'.pcs[t]) == Owned(s.pcs[t])
             || forall u :: 0 <= u < |s.pcs| && u != t ==> Owned(s.pcs[u]) != Owned(s'.pcs[t])
    ensures forall u :: 0 <= u < |s'.pcs| ==> ThreadOk(s'.mem, v', s'.pcs[u])
    ensures OwnedDistinct(s')
  {
    forall u | 0 <= u < |s'.pcs| ensures ThreadOk(s'.mem, v', s'.pcs[u]) {
      if u != t {
        assert s'.pcs[u] == s.pcs[u];
        assert ThreadOk(s.mem, v, s.pcs[u]) && Unnoticed(s.mem, s'.mem, v', s.pcs[u]);
      }
    }
    forall i, j | 0 <= i < j < |s'.pcs| && Owned(s'.pcs[i]).Some?
      ensures Owned(s'.pcs[i]) != Owned(s'.pcs[j])
    {
      assert Owned(s.pcs[i]).Some? ==> Owned(s.pcs[i]) != Owned(s.pcs[j]);
    }
  }

  /** A lock holder's view of the ends is undisturbed by a thread that is neither holder. */
  lemma QuietStep<A, T>(s: State<A, T>, v: View<A, T>, t: Tid)
    requires Inv(s, v) && t < |s.pcs| && CanStep(s, s.pcs[t]) && StepOf(s, t).0 == s.mem
    requires !s.pcs[t].PushLinked? && !s.pcs[t].PopTaken? && !s.pcs[t].PopHave?
    ensures Inv(Do(s, Step(t)), v)
  {
    var s', pc := Do(s, Step(t)), s.pcs[t];
    QuietThread(s, v, t);
    StepLocks(s, t);
    LocksKept(s, s', t);
    ThreadsKept(s, v, s', v, t);
    QuietEnds(s, v, t);
  }

  lemma QuietThread<A, T>(s: State<A, T>, v: View<A, T>, t: Tid)
    requires Inv(s, v) && t < |s.pcs| && CanStep(s, s.pcs[t]) && StepOf(s, t).0 == s.mem
    requires !s.pcs[t].PushLinked? && !s.pcs[t].PopTaken? && !s.pcs[t].PopHave?
    ensures ThreadOk(s.mem, v, StepOf(s, t).3)
    ensures Owned(StepOf(s, t).3) == None || Owned(StepOf(s, t).3) == Owned(s.pcs[t])
    ensures forall u :: 0 <= u < |s.pcs| ==> Unnoticed(s.mem, s.mem, v, s.pcs[u])
  {
    forall u | 0 <= u < |s.pcs| ensures Unnoticed(s.mem, s.mem, v, s.pcs[u]) {
      Unmoved(s.mem, v, s.pcs[u]);
    }
    assert ThreadOk(s.mem, v, s.pcs[t]);
    if s.pcs[t].PopCompare? {
      CompareThread(s, v, t);
    } else if s.pcs[t].PopTailLocked? {
      assert v.chain[|v.q|] in v.chain;
    }
  }

  lemma Unmoved<A, T>(m: Mem<A, T>, v: View<A, T>, pc: Pc<A, T>)
    requires ThreadOk(m, v, pc)
    ensures Unnoticed(m, m, v, pc)
  {
  }

  /** A popper whose `tail` value differs from `head` has found a value, however stale that value is. */
  lemma CompareThread<A, T>(s: State<A, T>, v: View<A, T>, t: Tid)
    requires Inv(s, v) && t < |s.pcs| && s.pcs[t].PopCompare?
    ensures s.mem.head == Some(v.chain[0])
    ensures ThreadOk(s.mem, v, StepOf(s, t).3) && Owned(StepOf(s, t).3) == None
  {
    assert ThreadOk(s.mem, v, s.pcs[t]) && HoldsHead(s.pcs[t]);
    assert HolderPc(s.headLock, s.pcs) == s.pcs[t];
    assert v.q == [] ==> v.chain == [v.chain[0]];
  }

  lemma QuietEnds<A, T>(s: State<A, T>, v: View<A, T>, t: Tid)
    requires Inv(s, v) && t < |s.pcs| && CanStep(s, s.pcs[t]) && StepOf(s, t).0 == s.mem
    requires !s.pcs[t].PushLinked? && !s.pcs[t].PopTaken? && !s.pcs[t].PopHave? && !StepOf(s, t).3.Crashed?
    ensures EndsOk(Do(s, Step(t)), v)
  {
    var s' := Do(s, Step(t));
    StepLocks(s, t);
    assert ThreadOk(s.mem, v, s.pcs[t]);
    assert HoldsHead(s.pcs[t]) <==> s.headLock == Some(t);
    assert HoldsTail(s.pcs[t]) <==> s.tailLock == Some(t);
    assert !s'.pcs[t].PopTaken?;
    assert FrontOf(s'.mem, HolderPc(s'.headLock, s'.pcs)) == FrontOf(s.mem, HolderPc(s.headLock, s.pcs));
    assert TailCell(HolderPc(s'.tailLock, s'.pcs)) == TailCell(HolderPc(s.tailLock, s.pcs));
  }

  /** Program counters of threads outside the locks that own no node. */
  predicate Detached<A, T>(pc: Pc<A, T>) {
    pc.Idle? || pc.PushCalled? || pc.PopCalled? || pc.PushNotify? || pc.PopAsleep? || pc.PopWoken? || pc.Returning?
  }

  /** Calls, returns, notifications and wakeups change program counters of detached threads only. */
  lemma OutsidePcs<A, T>(s: State<A, T>, a: Action<A, T>, u: Tid)
    requires Enabled(s, a) && !a.Step? && !a.Alloc? && u < |s.pcs|
    ensures |Do(s, a).pcs| == |s.pcs|
    ensures Do(s, a).pcs[u] == s.pcs[u] || (Detached(s.pcs[u]) && Detached(Do(s, a).pcs[u]))
  {
  }

  lemma OutsideStep<A, T>(s: State<A, T>, v: View<A, T>, a: Action<A, T>)
    requires Inv(s, v) && Enabled(s, a) && !a.Step? && !a.Alloc?
    ensures Inv(Do(s, a), v)
  {
    var s' := Do(s, a);
    assert s' == s.(pcs := s'.pcs);
    forall u | 0 <= u < |s.pcs|
      ensures |s'.pcs| == |s.pcs|
      ensures s'.pcs[u] == s.pcs[u] || (Detached(s.pcs[u]) && Detached(s'.pcs[u]))
    {
      OutsidePcs(s, a, u);
    }
    DetachedChange(s, v, s');
  }

  lemma DetachedAlike<A, T>(m: Mem<A, T>, v: View<A, T>, pc: Pc<A, T>, pc': Pc<A, T>)
    requires pc' == pc || (Detached(pc) && Detached(pc'))
    ensures HoldsHead(pc') == HoldsHead(pc) && HoldsTail(pc') == HoldsTail(pc) && Owned(pc') == Owned(pc)
    ensures ThreadOk(m, v, pc) ==> ThreadOk(m, v, pc')
  {
  }

  lemma DetachedChange<A, T>(s: State<A, T>, v: View<A, T>, s': State<A, T>)
    requires Inv(s, v) && |s'.pcs| == |s.pcs| && s' == s.(pcs := s'.pcs)
    requires forall u :: 0 <= u < |s.pcs| ==>
      s'.pcs[u] == s.pcs[u] || (Detached(s.pcs[u]) && Detached(s'.pcs[u]))
    ensures Inv(s', v)
  {
    assert LocksOk(s') by {
      forall u | 0 <= u < |s.pcs|
        ensures HoldsHead(s'.pcs[u]) == HoldsHead(s.pcs[u]) && HoldsTail(s'.pcs[u]) == HoldsTail(s.pcs[u])
      {
        DetachedAlike(s.mem, v, s.pcs[u], s'.pcs[u]);
      }
    }
    assert EndsOk(s', v) by {
      assert HolderPc(s'.headLock, s'.pcs) == HolderPc(s.headLock, s.pcs);
      assert HolderPc(s'.tailLock, s'.pcs) == HolderPc(s.tailLock, s.pcs);
    }
    forall u | 0 <= u < |s'.pcs| ensures ThreadOk(s'.mem, v, s'.pcs[u]) {
      DetachedAlike(s.mem, v, s.pcs[u], s'.pcs[u]);
    }
    assert OwnedDistinct(s') by {
      forall i, j | 0 <= i < j < |s'.pcs| && Owned(s'.pcs[i]).Some?
        ensures Owned(s'.pcs[i]) != Owned(s'.pcs[j])
      {
        DetachedAlike(s.mem, v, s.pcs[i], s'.pcs[i]);
        DetachedAlike(s.mem, v, s.pcs[j], s'.pcs[j]);
      }
    }
  }

  lemma AllocStep<A, T>(s: State<A, T>, v: View<A, T>, t: Tid, p: A)
    requires Inv(s, v) && Enabled(s, Alloc(t, p))
    ensures Inv(Do(s, Alloc(t, p)), v)
  {
    var s' := Do(s, Alloc(t, p));
    forall u | 0 <= u < |s.pcs|
      ensures Unnoticed(s.mem, s'.mem, v, s.pcs[u]) && Owned(s.pcs[u]) != Some(p)
    {
      assert ThreadOk(s.mem, v, s.pcs[u]);
    }
    LocksKept(s, s', t);
    ThreadsKept(s, v, s', v, t);
    assert HolderPc(s'.headLock, s'.pcs) == HolderPc(s.headLock, s.pcs);
  }

  /** Writing the data or the link of the node at `tail`. */
  lemma TailWriteStep<A, T>(s: State<A, T>, v: View<A, T>, t: Tid)
    requires Inv(s, v) && t < |s.pcs| && (s.pcs[t].PushLocked? || s.pcs[t].PushWritten?)
    ensures Inv(Do(s, Step(t)), v)
  {
    var s' := Do(s, Step(t));
    assert HoldsTail(s.pcs[t]) && ThreadOk(s.mem, v, s.pcs[t]);
    assert HolderPc(s.tailLock, s.pcs) == s.pcs[t];
    assert s.mem.tail in v.chain;
    var cell := s'.mem.heap[s.mem.tail];
    assert s'.mem == s.mem.(heap := s.mem.heap[s.mem.tail := cell]);
    forall u | 0 <= u < |s.pcs| ensures Unnoticed(s.mem, s'.mem, v, s.pcs[u]) {
      TailUnnoticed(s.mem, v, s.pcs[u], cell);
    }
    LocksKept(s, s', t);
    TailOffChain(s.mem, v, cell);
    ThreadsKept(s, v, s', v, t);
    assert HolderPc(s'.headLock, s'.pcs).PopTaken? == HolderPc(s.headLock, s.pcs).PopTaken?;
  }

  /** The node at `tail` is nobody's own node, and holds no queued value. */
  lemma TailUnnoticed<A, T>(m: Mem<A, T>, v: View<A, T>, pc: Pc<A, T>, cell: Cell<A, T>)
    requires ChainOk(m, v) && ThreadOk(m, v, pc)
    ensures Unnoticed(m, m.(heap := m.heap[m.tail := cell]), v, pc)
  {
    assert v.chain[|v.q|] in v.chain;
  }

  lemma TailOffChain<A, T>(m: Mem<A, T>, v: View<A, T>, cell: Cell<A, T>)
    requires ChainOk(m, v)
    ensures ChainOk(m.(heap := m.heap[m.tail := cell]), v)
  {
  }

  /** `tail = new_tail`: the pushed value joins the queue. */
  lemma MoveTailStep<A, T>(s: State<A, T>, v: View<A, T>, t: Tid)
    requires Inv(s, v) && t < |s.pcs| && s.pcs[t].PushLinked?
    ensures Inv(Do(s, Step(t)), NextView(s, v, Step(t)))
  {
    var s', v' := Do(s, Step(t)), NextView(s, v, Step(t));
    var p := s.pcs[t].p;
    assert HoldsTail(s.pcs[t]) && ThreadOk(s.mem, v, s.pcs[t]);
    assert HolderPc(s.tailLock, s.pcs) == s.pcs[t];
    forall u | 0 <= u < |s.pcs| && u != t ensures Unnoticed(s.mem, s'.mem, v', s.pcs[u]) {
      assert ThreadOk(s.mem, v, s.pcs[u]);
      OwnedApart(s, t, u);
    }
    LocksKept(s, s', t);
    assert ChainOk(s'.mem, v');
    ThreadsKept(s, v, s', v', t);
    assert HolderPc(s'.headLock, s'.pcs).PopTaken? == HolderPc(s.headLock, s.pcs).PopTaken?;
  }

  /** `old_head = std::move(head)` */
  lemma TakeHeadStep<A, T>(s: State<A, T>, v: View<A, T>, t: Tid)
    requires Inv(s, v) && t < |s.pcs| && s.pcs[t].PopHave?
    ensures Inv(Do(s, Step(t)), v)
  {
    var s' := Do(s, Step(t));
    assert HoldsHead(s.pcs[t]) && ThreadOk(s.mem, v, s.pcs[t]);
    assert HolderPc(s.headLock, s.pcs) == s.pcs[t];
    forall u | 0 <= u < |s.pcs| && u != t ensures Unnoticed(s.mem, s'.mem, v, s.pcs[u]) {
      assert ThreadOk(s.mem, v, s.pcs[u]);
      assert !HoldsHead(s.pcs[u]);
    }
    LocksKept(s, s', t);
    assert ChainOk(s'.mem, v);
    ThreadsKept(s, v, s', v, t);
    assert TailCell(HolderPc(s'.tailLock, s'.pcs)) == TailCell(HolderPc(s.tailLock, s.pcs));
  }

  /** `head = std::move(old_head->next)`: the front value leaves the queue. */
  lemma AdvanceHeadStep<A, T>(s: State<A, T>, v: View<A, T>, t: Tid)
    requires Inv(s, v) && t < |s.pcs| && s.pcs[t].PopTaken?
    ensures Inv(Do(s, Step(t)), NextView(s, v, Step(t)))
  {
    var s', v' := Do(s, Step(t)), NextView(s, v, Step(t));
    assert HoldsHead(s.pcs[t]) && ThreadOk(s.mem, v, s.pcs[t]);
    assert HolderPc(s.headLock, s.pcs) == s.pcs[t];
    var was := v.chain[0];
    assert was != v.chain[|v.q|];
    assert s.mem.heap[was] == Cell(Some(v.q[0]), Some(v.chain[1]));
    forall u | 0 <= u < |s.pcs| && u != t
      ensures Unnoticed(s.mem, s'.mem, v', s.pcs[u]) && Owned(s.pcs[u]) != Some(was)
    {
      assert ThreadOk(s.mem, v, s.pcs[u]) && !HoldsHead(s.pcs[u]);
      assert was in v.chain;
    }
    LocksKept(s, s', t);
    assert ChainOk(s'.mem, v');
    assert was !in v'.chain;
    ThreadsKept(s, v, s', v', t);
    assert TailCell(HolderPc(s'.tailLock, s'.pcs)) == TailCell(HolderPc(s.tailLock, s.pcs));
  }

  /** Freeing a popped node. */
  lemma FreeStep<A, T>(s: State<A, T>, v: View<A, T>, t: Tid)
    requires Inv(s, v) && t < |s.pcs| && s.pcs[t].PopData?
    ensures Inv(Do(s, Step(t)), v)
  {
    var s', was := Do(s, Step(t)), s.pcs[t].was;
    assert ThreadOk(s.mem, v, s.pcs[t]);
    assert was !in v.chain;
    forall u | 0 <= u < |s.pcs| && u != t ensures Unnoticed(s.mem, s'.mem, v, s.pcs[u]) {
      assert ThreadOk(s.mem, v, s.pcs[u]);
      OwnedApart(s, t, u);
    }
    LocksKept(s, s', t);
    FreedOffChain(s.mem, v, was);
    ThreadsKept(s, v, s', v, t);
    assert TailCell(HolderPc(s'.tailLock, s'.pcs)) == TailCell(HolderPc(s.tailLock, s.pcs));
  }

  lemma FreedOffChain<A, T>(m: Mem<A, T>, v: View<A, T>, was: A)
    requires ChainOk(m, v) && was !in v.chain
    ensures ChainOk(FreeNode(m, was), v) && m.tail != was
  {
    assert forall i :: 0 <= i < |v.chain| ==> v.chain[i] in v.chain;
  }

  lemma InvStep<A, T>(s: State<A, T>, v: View<A, T>, a: Action<A, T>)
    requires Inv(s, v) && Enabled(s, a)
    ensures Inv(Do(s, a), NextView(s, v, a))
  {
    match a
    case Step(t) =>
      var pc := s.pcs[t];
      if pc.PushLinked? { MoveTailStep(s, v, t); }
      else if pc.PopTaken? { AdvanceHeadStep(s, v, t); }
      else if pc.PushLocked? || pc.PushWritten? { TailWriteStep(s, v, t); }
      else if pc.PopHave? { TakeHeadStep(s, v, t); }
      else if pc.PopData? { FreeStep(s, v, t); }
      else { QuietStep(s, v, t); }
    case Alloc(t, p) => AllocStep(s, v, t, p);
    case _ => OutsideStep(s, v, a);
  }

  ghost function ViewAfter<A, T>(s: State<A, T>, v: View<A, T>, acts: seq<Action<A, T>>): View<A, T>
    requires Legal(s, acts)
    decreases |acts|
  {
    if acts == [] then v else ViewAfter(Do(s, acts[0]), NextView(s, v, acts[0]), acts[1..])
  }

  lemma {:induction false} InvRun<A, T>(s: State<A, T>, v: View<A, T>, acts: seq<Action<A, T>>)
    requires Inv(s, v) && Legal(s, acts)
    ensures Inv(Exec(s, acts), ViewAfter(s, v, acts))
    decreases |acts|
  {
    if acts != [] {
      InvStep(s, v, acts[0]);
      InvRun(Do(s, acts[0]), NextView(s, v, acts[0]), acts[1..]);
    }
  }

  ghost function InitView<A, T>(s: State<A, T>): View<A, T> {
    View([s.mem.tail], [])
  }

  lemma InvInit<A, T>(s: State<A, T>)
    requires Init(s)
    ensures Inv(s, InitView(s))
  {
  }

  // ----- Operations run without interference -----

  ghost predicate Quiescent<A, T>(m: Mem<A, T>, v: View<A, T>) {
    ChainOk(m, v) && m.head == Some(v.chain[0]) && m.heap[m.tail] == Cell(None, None)
  }

  lemma WholePush<A, T>(m: Mem<A, T>, v: View<A, T>, p: A, x: T)
    requires Quiescent(m, v) && p !in m.heap
    ensures m.tail in m.heap
    ensures Quiescent(MoveTail(LinkNext(WriteData(AllocNode(m, p), x), p), p), View(v.chain + [p], v.q + [x]))
  {
    var m', v' := MoveTail(LinkNext(WriteData(AllocNode(m, p), x), p), p), View(v.chain + [p], v.q + [x]);
    forall i | 0 <= i < |v'.q| ensures m'.heap[v'.chain[i]] == Cell(Some(v'.q[i]), Some(v'.chain[i + 1])) {
      if i < |v.q| { assert v.chain[i] != v.chain[|v.q|]; }
    }
  }

  /** `try_pop` finds the queue empty exactly when `head` equals `tail`. */
  lemma WholePop<A, T>(m: Mem<A, T>, v: View<A, T>)
    requires Quiescent(m, v)
    ensures v.q == [] <==> m.head == Some(m.tail)
    ensures v.q != [] ==>
      var was := v.chain[0];
      && was in m.heap && m.heap[was].data == Some(v.q[0])
      && Quiescent(FreeNode(AdvanceHead(TakeHead(m), was), was), View(v.chain[1..], v.q[1..]))
  {
    if v.q != [] {
      assert v.chain[0] != v.chain[|v.q|];
      assert m.heap[v.chain[0]] == Cell(Some(v.q[0]), Some(v.chain[1]));
    }
  }
}
