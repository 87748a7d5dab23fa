/** The single-mutex queue of src/SimpleThreadSafeQueue.h.

    Everything between taking and releasing `m_mutex` is one atomic section, because only the
    mutex holder touches `m_queue`.  A wait on the condition variable releases the mutex and
    joins the sleepers in one step; sleepers may also wake spuriously. */
module SimpleQueue {
  import opened Common

  datatype Op<T> = Push(v: T) | TryPop | WaitPop

  datatype Resp<T> = Pushed | Popped(v: T) | Empty

  /** What one critical section does: the new queue, and the answer (None: go to sleep). */
  function Critical<T>(q: seq<T>, op: Op<T>): (seq<T>, Option<Resp<T>>) {
    match op
    case Push(v) => (q + [v], Some(Pushed))
    case TryPop => if q == [] then (q, Some(Empty)) else (q[1..], Some(Popped(q[0])))
    case WaitPop => if q == [] then (q, None) else (q[1..], Some(Popped(q[0])))
  }

  /** The object itself, one method per critical section. */
  class SimpleThreadSafeQueue<T> {
    var queue: seq<T>

    constructor ()
      ensures queue == []
    {
      queue := [];
    }

    method PushSection(newValue: T)
      modifies this
      ensures (queue, Some(Pushed)) == Critical(old(queue), Push(newValue))
    {
      queue := queue + [newValue];
    }

    /** The section of `wait_and_pop` from (re)taking the mutex up to returning or sleeping. */
    method WaitAndPopSection() returns (r: Option<T>)
      modifies this
      ensures (queue, if r.Some? then Some(Popped(r.value)) else None) == Critical(old(queue), WaitPop)
    {
      if queue == [] {
        r := None;
      } else {
        r := Some(queue[0]);
        queue := queue[1..];
      }
    }

    method TryPop() returns (r: Option<T>)
      modifies this
      ensures (queue, Some(if r.Some? then Popped(r.value) else Empty)) == Critical(old(queue), Op.TryPop)
    {
      r := None;
      if queue != [] {
        r := Some(queue[0]);
        queue := queue[1..];
      }
    }
  }

  /** Where a thread is: outside, before a critical section, asleep in the condition variable,
      woken but not yet holding the mutex again, or about to return. */
  datatype Pc<T> = Idle | Called(op: Op<T>) | Asleep | Woken | Returning(r: Resp<T>)

  datatype State<T> = State(queue: seq<T>, pcs: seq<Pc<T>>)

  datatype Action<T> =
    | Invoke(t: Tid, op: Op<T>)
    | Section(t: Tid, wake: Option<Tid>)
    | Spurious(t: Tid)
    | Respond(t: Tid)

  /** What a caller can see of a run. */
  datatype Event<T> = Call(t: Tid, op: Op<T>) | Return(t: Tid, r: Resp<T>)

  ghost predicate Init<T>(s: State<T>) {
    s.queue == [] && forall t :: 0 <= t < |s.pcs| ==> s.pcs[t] == Idle
  }

  predicate InSection<T>(pc: Pc<T>) {
    pc.Called? || pc.Woken?
  }

  function OpOf<T>(pc: Pc<T>): Op<T>
    requires InSection(pc)
  {
    if pc.Called? then pc.op else WaitPop
  }

  ghost predicate SomeoneAsleep<T>(s: State<T>) {
    exists t :: 0 <= t < |s.pcs| && s.pcs[t] == Asleep
  }

  /** `notify_one` inside push: it must wake a sleeper when there is one. */
  ghost predicate WakeOk<T>(s: State<T>, op: Op<T>, wake: Option<Tid>) {
    match wake
    case None => op.Push? ==> !SomeoneAsleep(s)
    case Some(u) => op.Push? && u < |s.pcs| && s.pcs[u] == Asleep
  }

  ghost predicate Enabled<T>(s: State<T>, a: Action<T>) {
    a.t < |s.pcs| &&
    match a
    case Invoke(t, _) => s.pcs[t] == Idle
    case Section(t, wake) => InSection(s.pcs[t]) && WakeOk(s, OpOf(s.pcs[t]), wake)
    case Spurious(t) => s.pcs[t] == Asleep
    case Respond(t) => s.pcs[t].Returning?
  }

  ghost function Do<T>(s: State<T>, a: Action<T>): State<T>
    requires Enabled(s, a)
  {
    match a
    case Invoke(t, op) => s.(pcs := s.pcs[t := Called(op)])
    case Section(t, wake) =>
      var (q, r) := Critical(s.queue, OpOf(s.pcs[t]));
      var pcs := if wake.Some? then s.pcs[wake.value := Woken] else s.pcs;
      State(q, pcs[t := if r.Some? then Returning(r.value) else Asleep])
    case Spurious(t) => s.(pcs := s.pcs[t := Woken])
    case Respond(t) => s.(pcs := s.pcs[t := Idle])
  }

  ghost predicate Legal<T>(s: State<T>, acts: seq<Action<T>>)
    decreases |acts|
  {
    acts == [] || (Enabled(s, acts[0]) && Legal(Do(s, acts[0]), acts[1..]))
  }

  ghost function Exec<T>(s: State<T>, acts: seq<Action<T>>): State<T>
    requires Legal(s, acts)
    decreases |acts|
  {
    if acts == [] then s else Exec(Do(s, acts[0]), acts[1..])
  }

  ghost function EventOf<T>(s: State<T>, a: Action<T>): seq<Event<T>>
    requires Enabled(s, a)
  {
    match a
    case Invoke(t, op) => [Call(t, op)]
    case Respond(t) => [Return(t, s.pcs[t].r)]
    case _ => []
  }

  ghost function Trace<T>(s: State<T>, acts: seq<Action<T>>): seq<Event<T>>
    requires Legal(s, acts)
    decreases |acts|
  {
    if acts == [] then [] else EventOf(s, acts[0]) + Trace(Do(s, acts[0]), acts[1..])
  }

  // ----- No wakeup is lost -----

  predicate IsWoken<T>(pc: Pc<T>) {
    pc.Woken?
  }

  ghost function WokenSet<T>(s: State<T>): set<Tid> {
    Where(s.pcs, IsWoken)
  }

  /** While anyone sleeps, the queue holds no more values than there are woken consumers
      still on their way to the mutex. */
  ghost predicate WakeupsMatched<T>(s: State<T>) {
    SomeoneAsleep(s) ==> |s.queue| <= |WokenSet(s)|
  }

  lemma WakeupsMatchedStep<T>(s: State<T>, a: Action<T>)
    requires WakeupsMatched(s) && Enabled(s, a)
    ensures WakeupsMatched(Do(s, a))
  {
    var s' := Do(s, a);
    if SomeoneAsleep(s') {
      if a.Section? {
        WakeupsMatchedSection(s, a.t, a.wake);
      } else if a.Spurious? {
        assert WokenSet(s') == WokenSet(s) + {a.t};
      } else {
        KeptAsleep(s, s', a.t);
        assert WokenSet(s') == WokenSet(s);
      }
    }
  }

  lemma WakeupsMatchedSection<T>(s: State<T>, t: Tid, wake: Option<Tid>)
    requires WakeupsMatched(s) && Enabled(s, Section(t, wake))
    ensures WakeupsMatched(Do(s, Section(t, wake)))
  {
    var s' := Do(s, Section(t, wake));
    if SomeoneAsleep(s') && s'.pcs[t] != Asleep {
      KeptAsleep(s, s', t);
      SectionWoken(s, t, wake);
    }
  }

  /** A section that does not fall asleep adds the sleeper it wakes, and drops itself. */
  lemma SectionWoken<T>(s: State<T>, t: Tid, wake: Option<Tid>)
    requires Enabled(s, Section(t, wake)) && Do(s, Section(t, wake)).pcs[t] != Asleep
    ensures |WokenSet(Do(s, Section(t, wake)))| ==
            |WokenSet(s)| + (if wake.Some? then 1 else 0) - (if s.pcs[t] == Woken then 1 else 0)
  {
    var pcs := s.pcs;
    if wake.Some? {
      WhereUpdate(pcs, wake.value, Woken, IsWoken);
      pcs := pcs[wake.value := Woken];
    }
    WhereUpdate(pcs, t, Do(s, Section(t, wake)).pcs[t], IsWoken);
  }

  /** If nobody newly fell asleep, whoever sleeps now slept before. */
  lemma KeptAsleep<T>(s: State<T>, s': State<T>, t: Tid)
    requires t < |s.pcs| == |s'.pcs| && s'.pcs[t] != Asleep && SomeoneAsleep(s')
    requires forall u :: 0 <= u < |s.pcs| && s'.pcs[u] == Asleep ==> s.pcs[u] == Asleep
    ensures SomeoneAsleep(s)
  {
    var u :| 0 <= u < |s'.pcs| && s'.pcs[u] == Asleep;
    assert s.pcs[u] == Asleep;
  }

  lemma {:induction false} WakeupsMatchedRun<T>(s: State<T>, acts: seq<Action<T>>)
    requires WakeupsMatched(s) && Legal(s, acts)
    ensures WakeupsMatched(Exec(s, acts))
    decreases |acts|
  {
    if acts != [] {
      WakeupsMatchedStep(s, acts[0]);
      WakeupsMatchedRun(Do(s, acts[0]), acts[1..]);
    }
  }

  /** In every run, a consumer that sleeps while the queue is not empty is never stranded: the
      values are covered by woken consumers, and each of these can take the mutex and pop. */
  lemma NoLostWakeup<T>(s0: State<T>, acts: seq<Action<T>>)
    requires Init(s0) && Legal(s0, acts)
    ensures var s := Exec(s0, acts);
      SomeoneAsleep(s) ==>
        && |s.queue| <= |WokenSet(s)|
        && (s.queue != [] ==> exists t :: t in WokenSet(s) && Enabled(s, Section(t, None)) &&
                                          Do(s, Section(t, None)).pcs[t] == Returning(Popped(s.queue[0])))
  {
    WakeupsMatchedRun(s0, acts);
    var s := Exec(s0, acts);
    if SomeoneAsleep(s) && s.queue != [] {
      assert WokenSet(s) != {} by { assert |WokenSet(s)| > 0; }
      var t :| t in WokenSet(s);
      assert Enabled(s, Section(t, None));
    }
  }

  // ----- First in, first out -----

  ghost function PushedBy<T>(s: State<T>, a: Action<T>): seq<T>
    requires Enabled(s, a)
  {
    if a.Section? && OpOf(s.pcs[a.t]).Push? then [OpOf(s.pcs[a.t]).v] else []
  }

  ghost function PoppedBy<T>(s: State<T>, a: Action<T>): seq<T>
    requires Enabled(s, a)
  {
    var pc := Do(s, a).pcs[a.t];
    if a.Section? && pc.Returning? && pc.r.Popped? then [pc.r.v] else []
  }

  ghost function PushesOf<T>(s: State<T>, acts: seq<Action<T>>): seq<T>
    requires Legal(s, acts)
    decreases |acts|
  {
    if acts == [] then [] else PushedBy(s, acts[0]) + PushesOf(Do(s, acts[0]), acts[1..])
  }

  ghost function PopsOf<T>(s: State<T>, acts: seq<Action<T>>): seq<T>
    requires Legal(s, acts)
    decreases |acts|
  {
    if acts == [] then [] else PoppedBy(s, acts[0]) + PopsOf(Do(s, acts[0]), acts[1..])
  }

  lemma FifoStep<T>(s: State<T>, a: Action<T>)
    requires Enabled(s, a)
    ensures s.queue + PushedBy(s, a) == PoppedBy(s, a) + Do(s, a).queue
  {
    if a.Section? && !OpOf(s.pcs[a.t]).Push? && s.queue != [] {
      assert s.queue == [s.queue[0]] + s.queue[1..];
    }
  }

  /** The values handed out, followed by those still queued, are the values put in, in order. */
  lemma {:induction false} Fifo<T>(s: State<T>, acts: seq<Action<T>>)
    requires Legal(s, acts)
    ensures s.queue + PushesOf(s, acts) == PopsOf(s, acts) + Exec(s, acts).queue
    decreases |acts|
  {
    if acts != [] {
      var s1 := Do(s, acts[0]);
      var rest := acts[1..];
      Fifo(s1, rest);
      var pushed := PushedBy(s, acts[0]);
      var popped := PoppedBy(s, acts[0]);
      FifoStep(s, acts[0]);
      Regroup(s.queue, pushed, popped, s1.queue, PushesOf(s1, rest), PopsOf(s1, rest), Exec(s1, rest).queue);
    }
  }

  /** In every run a pop that reaches the mutex answers with the oldest value pushed and not yet handed
      out; only when there is none does `try_pop` report empty, and a waiting consumer sleep. */
  lemma PopAnswers<T>(s0: State<T>, acts: seq<Action<T>>, t: Tid, wake: Option<Tid>)
    requires Init(s0) && Legal(s0, acts) && Enabled(Exec(s0, acts), Section(t, wake))
    requires !OpOf(Exec(s0, acts).pcs[t]).Push?
    ensures var pushed, popped := PushesOf(s0, acts), PopsOf(s0, acts);
      var s, pc := Exec(s0, acts), Do(Exec(s0, acts), Section(t, wake)).pcs[t];
      && |popped| <= |pushed|
      && pc == if |popped| < |pushed| then Returning(Popped(pushed[|popped|]))
               else if OpOf(s.pcs[t]).TryPop? then Returning(Empty)
               else Asleep
  {
    Fifo(s0, acts);
    assert s0.queue + PushesOf(s0, acts) == PushesOf(s0, acts);
  }

  lemma Regroup<T>(q: seq<T>, pushed: seq<T>, popped: seq<T>, q1: seq<T>, later: seq<T>, out: seq<T>, left: seq<T>)
    requires q + pushed == popped + q1 && q1 + later == out + left
    ensures q + (pushed + later) == (popped + out) + left
  {
    assert q + (pushed + later) == (q + pushed) + later;
    assert popped + (q1 + later) == (popped + q1) + later;
    assert popped + (out + left) == (popped + out) + left;
  }
}
