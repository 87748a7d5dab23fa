/** The `Barrier` of benchmark/src/mutex.h: its fields, and its atomic sections under `lock_`. */
module PhaseBarrier {

  datatype Shared = Shared(running: int, phase: int, entered: int)

  /** How the locked part of `wait` starts: the CHECK fails, the thread waits, or it is last. */
  datatype Entry = CheckFailed | Waits(cp: int) | Last

  function Advance(b: Shared): Shared {
    Shared(b.running, b.phase + 1, 0)
  }

  /** `createBarrier` from taking the lock to waiting or returning. */
  function Enter(b: Shared): (Shared, Entry) {
    if b.entered >= b.running then (b, CheckFailed)
    else if b.entered + 1 < b.running then (b.(entered := b.entered + 1), Waits(b.phase))
    else (Advance(b), Last)
  }

  /** The predicate of the condition wait of a thread that entered in phase cp. */
  predicate MayLeave(b: Shared, cp: int) {
    b.phase > cp || b.entered == b.running
  }

  /** `createBarrier` after the wait: the new fields, and whether this thread became the last. */
  function Leave(b: Shared, cp: int): (Shared, bool)
    requires MayLeave(b, cp)
  {
    if b.phase > cp then (b, false) else (Advance(b), true)
  }

  /** `removeThread`: the new fields, and whether it notifies the sleepers. */
  function Remove(b: Shared): (Shared, bool) {
    (b.(running := b.running - 1), b.entered != 0)
  }

  class Barrier {
    var running_threads: int
    var phase_number: int
    var entered: int

    function Fields(): Shared
      reads this
    {
      Shared(running_threads, phase_number, entered)
    }

    constructor (num_threads: int)
      ensures Fields() == Shared(num_threads, 0, 0)
    {
      running_threads, phase_number, entered := num_threads, 0, 0;
    }

    method EnterSection() returns (e: Entry)
      modifies this
      ensures (Fields(), e) == Enter(old(Fields()))
    {
      if entered >= running_threads {
        return CheckFailed;
      }
      entered := entered + 1;
      if entered < running_threads {
        return Waits(phase_number);
      }
      phase_number := phase_number + 1;
      entered := 0;
      return Last;
    }

    /** One evaluation of the wait predicate after a wakeup; None: sleep on. */
    method WakeSection(cp: int) returns (woken: bool, last: bool)
      modifies this
      ensures woken == MayLeave(old(Fields()), cp)
      ensures if woken then (Fields(), last) == Leave(old(Fields()), cp) else Fields() == old(Fields())
    {
      woken := phase_number > cp || entered == running_threads;
      last := false;
      if woken && !(phase_number > cp) {
        phase_number := phase_number + 1;
        entered := 0;
        last := true;
      }
    }

    method RemoveThread() returns (notify: bool)
      modifies this
      ensures (Fields(), notify) == Remove(old(Fields()))
    {
      running_threads := running_threads - 1;
      notify := entered != 0;
    }
  }
}
