/** Dining philosophers around a ring of n forks (src/6_deadlock_detection.cpp).

    The philosopher at seat i locks fork i first and fork (i + 1) % n second, eats, and drops the
    locks in the reverse order.  Any subset of the seats is taken, by one philosopher each; the
    others are `Absent`.  A cancelled philosopher stops when it next tests its flag. */
module Philosophers {
  import opened Common

  /** `Table::GetSeat`: the two forks of a seat index. */
  function GetSeat(index: nat, n: nat): (nat, nat)
    requires n > 0
  {
    (index % n, (index + 1) % n)
  }

  datatype Pc = Absent | Thinking | WantsFirst | HasFirst | Eating | PutSecond | Stopped

  /** One mutex per fork, and one program counter per seat. */
  datatype State = State(forks: seq<Option<nat>>, pcs: seq<Pc>)

  datatype Action =
    | GoEat(i: nat)
    | LockFirst(i: nat)
    | LockSecond(i: nat)
    | UnlockSecond(i: nat)
    | UnlockFirst(i: nat)
    | Stop(i: nat)

  // ----- What locking and unlocking do to the forks -----

  predicate Free(forks: seq<Option<nat>>, f: nat)
    requires f < |forks|
  {
    forks[f] == None
  }

  function Take(forks: seq<Option<nat>>, f: nat, i: nat): seq<Option<nat>>
    requires f < |forks|
  {
    forks[f := Some(i)]
  }

  function PutBack(forks: seq<Option<nat>>, f: nat): seq<Option<nat>>
    requires f < |forks|
  {
    forks[f := None]
  }

  /** The table, its forks locked and unlocked in place. */
  class Table {
    var forks: seq<Option<nat>>

    constructor (seatCount: nat)
      ensures forks == seq(seatCount, _ => None)
    {
      forks := seq(seatCount, _ => None);
    }

    /** Locking blocks while the fork is held; here it reports whether the lock was taken. */
    method TryLock(f: nat, i: nat) returns (taken: bool)
      requires f < |forks|
      modifies this
      ensures taken == Free(old(forks), f)
      ensures forks == if taken then Take(old(forks), f, i) else old(forks)
    {
      taken := forks[f] == None;
      if taken { forks := forks[f := Some(i)]; }
    }

    method Unlock(f: nat)
      requires f < |forks|
      modifies this
      ensures forks == PutBack(old(forks), f)
    {
      forks := forks[f := None];
    }
  }

  /** The seat, or fork, to the right. */
  function Next(i: nat, n: nat): (j: nat)
    requires i < n
    ensures j < n
  {
    if i + 1 == n then 0 else i + 1
  }

  lemma {:induction false} ModOf(q: nat, r: nat, n: nat)
    requires r < n
    ensures (q * n + r) % n == r
  {
    if q > 0 {
      ModOf(q - 1, r, n);
      assert q * n + r == ((q - 1) * n + r) + n;
      AddModulus((q - 1) * n + r, n);
    }
  }

  lemma AddModulus(x: nat, n: nat)
    requires n > 0
    ensures (x + n) % n == x % n
  {
    var k := (x + n) / n - x / n - 1;
    assert n * ((x + n) / n) + (x + n) % n == n * (x / n) + x % n + n;
    assert n * k == x % n - (x + n) % n by {
      assert n * k == n * ((x + n) / n) - n * (x / n) - n;
    }
    Multiples(n, k);
  }

  /** Seat i's forks are fork i and the fork to its right, whatever index was asked for. */
  lemma SeatForks(index: nat, n: nat)
    requires n > 0
    ensures GetSeat(index, n) == (index % n, Next(index % n, n))
  {
    var q, r := index / n, index % n;
    assert index == q * n + r;
    if r + 1 < n {
      ModOf(q, r + 1, n);
    } else {
      assert index + 1 == (q + 1) * n + 0;
      ModOf(q + 1, 0, n);
    }
  }

  ghost predicate Init(s: State) {
    && |s.pcs| == |s.forks| >= 2
    && (forall i :: 0 <= i < |s.pcs| ==> s.pcs[i] == Absent || s.pcs[i] == Thinking)
    && (forall f :: 0 <= f < |s.forks| ==> s.forks[f] == None)
  }

  predicate Enabled(s: State, a: Action) {
    && a.i < |s.pcs| == |s.forks|
    && match a
       case GoEat(i) => s.pcs[i] == Thinking
       case LockFirst(i) => s.pcs[i] == WantsFirst && Free(s.forks, i)
       case LockSecond(i) => s.pcs[i] == HasFirst && Free(s.forks, Next(i, |s.pcs|))
       case UnlockSecond(i) => s.pcs[i] == Eating
       case UnlockFirst(i) => s.pcs[i] == PutSecond
       case Stop(i) => s.pcs[i] == Thinking
  }

  function Do(s: State, a: Action): State
    requires Enabled(s, a)
  {
    match a
    case GoEat(i) => s.(pcs := s.pcs[i := WantsFirst])
    case LockFirst(i) => State(Take(s.forks, i, i), s.pcs[i := HasFirst])
    case LockSecond(i) => State(Take(s.forks, Next(i, |s.pcs|), i), s.pcs[i := Eating])
    case UnlockSecond(i) => State(PutBack(s.forks, Next(i, |s.pcs|)), s.pcs[i := PutSecond])
    case UnlockFirst(i) => State(PutBack(s.forks, i), s.pcs[i := Thinking])
    case Stop(i) => s.(pcs := s.pcs[i := Stopped])
  }

  ghost predicate Legal(s: State, acts: seq<Action>)
    decreases |acts|
  {
    acts == [] || (Enabled(s, acts[0]) && Legal(Do(s, acts[0]), acts[1..]))
  }

  ghost function Exec(s: State, acts: seq<Action>): State
    requires Legal(s, acts)
    decreases |acts|
  {
    if acts == [] then s else Exec(Do(s, acts[0]), acts[1..])
  }

  // ----- Who holds which fork -----

  predicate HoldsFirst(pc: Pc) {
    pc == HasFirst || pc == Eating || pc == PutSecond
  }

  /** Fork i is held by its own philosopher as first fork, or by the one before as second. */
  ghost predicate Inv(s: State) {
    var n := |s.pcs|;
    && |s.forks| == n >= 2
    && (forall i :: 0 <= i < n && HoldsFirst(s.pcs[i]) ==> s.forks[i] == Some(i))
    && (forall i :: 0 <= i < n && s.pcs[i] == Eating ==> s.forks[Next(i, n)] == Some(i))
    && (forall f :: 0 <= f < n && s.forks[f].Some? ==>
          var i := s.forks[f].value;
          i < n && ((i == f && HoldsFirst(s.pcs[i])) || (f == Next(i, n) && s.pcs[i] == Eating)))
  }

  lemma InvLocks(s: State, i: nat)
    requires Inv(s) && i < |s.pcs|
    ensures Enabled(s, LockFirst(i)) ==> Inv(Do(s, LockFirst(i)))
    ensures Enabled(s, LockSecond(i)) ==> Inv(Do(s, LockSecond(i)))
  {
  }

  lemma InvUnlocks(s: State, i: nat)
    requires Inv(s) && i < |s.pcs|
    ensures Enabled(s, UnlockSecond(i)) ==> Inv(Do(s, UnlockSecond(i)))
    ensures Enabled(s, UnlockFirst(i)) ==> Inv(Do(s, UnlockFirst(i)))
  {
  }

  lemma InvStep(s: State, a: Action)
    requires Inv(s) && Enabled(s, a)
    ensures Inv(Do(s, a))
  {
    InvLocks(s, a.i);
    InvUnlocks(s, a.i);
  }

  lemma {:induction false} InvRun(s: State, acts: seq<Action>)
    requires Inv(s) && Legal(s, acts)
    ensures Inv(Exec(s, acts)) && |Exec(s, acts).pcs| == |s.pcs|
    ensures forall i :: 0 <= i < |s.pcs| ==> (s.pcs[i] == Absent <==> Exec(s, acts).pcs[i] == Absent)
    decreases |acts|
  {
    if acts != [] {
      InvStep(s, acts[0]);
      InvRun(Do(s, acts[0]), acts[1..]);
    }
  }

  /** Neighbours never eat at the same time, and a fork's mutex records its one holder. */
  lemma NeighboursNeverEatTogether(s0: State, acts: seq<Action>, i: nat)
    requires Init(s0) && Legal(s0, acts) && i < |s0.pcs|
    ensures var s := Exec(s0, acts);
      && |s.pcs| == |s.forks| == |s0.pcs|
      && !(s.pcs[i] == Eating && s.pcs[Next(i, |s.pcs|)] == Eating)
      && (s.pcs[i] == Eating ==> s.forks[i] == Some(i) && s.forks[Next(i, |s.pcs|)] == Some(i))
  {
    InvRun(s0, acts);
  }

  // ----- Deadlock -----

  predicate Active(pc: Pc) {
    pc != Absent && pc != Stopped
  }

  ghost predicate Stuck(s: State) {
    && (exists i :: 0 <= i < |s.pcs| && Active(s.pcs[i]))
    && (forall a :: !Enabled(s, a))
  }

  /** Everyone is seated, holds fork i and waits for fork (i + 1) % n. */
  ghost predicate Circle(s: State) {
    |s.pcs| >= 1 && forall i :: 0 <= i < |s.pcs| ==> s.pcs[i] == HasFirst
  }

  /** Sitting down to eat, or getting up for good; the other actions belong to a meal already begun. */
  predicate Decides(a: Action) {
    a.GoEat? || a.Stop?
  }

  /** No meal already begun can go on. */
  ghost predicate Blocked(s: State) {
    forall a :: Enabled(s, a) ==> Decides(a)
  }

  predicate InMeal(pc: Pc) {
    pc == WantsFirst || pc == HasFirst || pc == Eating || pc == PutSecond
  }

  /** Where no meal can go on, a fork that is held is held by its own philosopher, waiting for the next. */
  lemma HolderWaits(s: State, f: nat)
    requires Inv(s) && Blocked(s) && f < |s.pcs| && s.forks[f].Some?
    ensures s.pcs[f] == HasFirst
  {
    var h := s.forks[f].value;
    assert !Enabled(s, UnlockSecond(h)) && !Enabled(s, UnlockFirst(h));
  }

  /** So a philosopher in a meal holds his first fork, and so does the next one. */
  lemma BlockedNext(s: State, i: nat)
    requires Inv(s) && i < |s.pcs| && InMeal(s.pcs[i]) && Blocked(s)
    ensures s.pcs[i] == HasFirst
    ensures s.pcs[Next(i, |s.pcs|)] == HasFirst
  {
    assert !Enabled(s, LockFirst(i)) && !Enabled(s, LockSecond(i));
    assert s.forks[i].Some?;
    HolderWaits(s, i);
    HolderWaits(s, Next(i, |s.pcs|));
  }

  function Around(i: nat, k: nat, n: nat): (j: nat)
    requires i < n
    ensures j < n
  {
    if k == 0 then i else Next(Around(i, k - 1, n), n)
  }

  lemma {:induction false} AroundIs(i: nat, k: nat, n: nat)
    requires i < n && k <= n
    ensures Around(i, k, n) == if i + k < n then i + k else i + k - n
  {
    if k > 0 { AroundIs(i, k - 1, n); }
  }

  lemma {:induction false} AroundTheRing(s: State, i: nat, k: nat)
    requires Inv(s) && i < |s.pcs| && InMeal(s.pcs[i]) && Blocked(s)
    ensures s.pcs[Around(i, k, |s.pcs|)] == HasFirst
  {
    if k == 0 {
      BlockedNext(s, i);
    } else {
      AroundTheRing(s, i, k - 1);
      BlockedNext(s, Around(i, k - 1, |s.pcs|));
    }
  }

  lemma BlockedCircle(s: State, i: nat)
    requires Inv(s) && i < |s.pcs| && InMeal(s.pcs[i]) && Blocked(s)
    ensures Circle(s)
  {
    var n := |s.pcs|;
    forall j | 0 <= j < n ensures s.pcs[j] == HasFirst {
      var k := if i <= j then j - i else n - i + j;
      AroundTheRing(s, i, k);
      AroundIs(i, k, n);
    }
  }

  /** A reachable state with an active philosopher has no possible step exactly when all seats are
      taken and each philosopher holds one fork and waits for the next. */
  lemma StuckIffCircle(s0: State, acts: seq<Action>)
    requires Init(s0) && Legal(s0, acts)
    ensures Stuck(Exec(s0, acts)) <==> Circle(Exec(s0, acts))
  {
    InvRun(s0, acts);
    var s := Exec(s0, acts);
    var n := |s.pcs|;
    if Stuck(s) {
      var i :| 0 <= i < n && Active(s.pcs[i]);
      assert !Enabled(s, GoEat(i));
      BlockedCircle(s, i);
    }
    if Circle(s) {
      assert Active(s.pcs[0]);
      forall a ensures !Enabled(s, a) {
        if a.i < n {
          assert s.pcs[Next(a.i, n)] == HasFirst;
        }
      }
    }
  }

  /** One empty seat is enough to rule deadlock out. */
  lemma EmptySeatNeverStuck(s0: State, acts: seq<Action>, i: nat)
    requires Init(s0) && Legal(s0, acts) && i < |s0.pcs| && s0.pcs[i] == Absent
    ensures !Stuck(Exec(s0, acts))
  {
    InvRun(s0, acts);
    StuckIffCircle(s0, acts);
  }

  // ----- With an empty seat everyone can eat -----

  /** Steps left in the meals already begun. */
  function StepsLeft(pcs: seq<Pc>): nat {
    if pcs == [] then 0
    else
      StepsLeft(pcs[1..]) +
      match pcs[0]
      case WantsFirst => 4
      case HasFirst => 3
      case Eating => 2
      case PutSecond => 1
      case _ => 0
  }

  lemma {:induction false} StepsLeftUpdate(pcs: seq<Pc>, i: nat, pc: Pc)
    requires i < |pcs|
    ensures StepsLeft(pcs[i := pc]) == StepsLeft(pcs) - StepsLeft([pcs[i]]) + StepsLeft([pc])
  {
    if i == 0 {
      assert pcs[i := pc][1..] == pcs[1..];
      assert [pcs[0]][1..] == [] && [pc][1..] == [];
    } else {
      assert pcs[i := pc][1..] == pcs[1..][i - 1 := pc];
      StepsLeftUpdate(pcs[1..], i - 1, pc);
    }
  }

  lemma MealGoesOn(s: State, a: Action)
    requires Enabled(s, a) && !Decides(a)
    ensures StepsLeft(Do(s, a).pcs) < StepsLeft(s.pcs)
  {
    StepsLeftUpdate(s.pcs, a.i, Do(s, a).pcs[a.i]);
    assert forall pc: Pc :: [pc][1..] == [];
  }

  function AfterMeal(pc: Pc): Pc {
    if InMeal(pc) then Thinking else pc
  }

  lemma MealStep(s: State, a: Action)
    requires Enabled(s, a) && !Decides(a)
    ensures |Do(s, a).pcs| == |s.pcs|
    ensures forall i :: 0 <= i < |s.pcs| ==> AfterMeal(Do(s, a).pcs[i]) == AfterMeal(s.pcs[i])
  {
  }

  ghost predicate NobodyStops(acts: seq<Action>) {
    forall k :: 0 <= k < |acts| ==> !acts[k].Stop?
  }

  /** With an empty seat, all meals already begun can be finished. */
  lemma {:induction false} MealsFinish(s: State, e: nat) returns (acts: seq<Action>)
    requires Inv(s) && e < |s.pcs| && s.pcs[e] == Absent
    ensures Legal(s, acts) && NobodyStops(acts)
    ensures |Exec(s, acts).pcs| == |s.pcs| && Inv(Exec(s, acts))
    ensures forall i :: 0 <= i < |s.pcs| ==> Exec(s, acts).pcs[i] == AfterMeal(s.pcs[i])
    decreases StepsLeft(s.pcs)
  {
    if a :| Enabled(s, a) && !Decides(a) {
      InvStep(s, a);
      MealGoesOn(s, a);
      MealStep(s, a);
      var rest := MealsFinish(Do(s, a), e);
      acts := [a] + rest;
      assert acts[1..] == rest;
    } else {
      forall i | 0 <= i < |s.pcs| ensures !InMeal(s.pcs[i]) {
        if InMeal(s.pcs[i]) { BlockedCircle(s, i); }
      }
      acts := [];
    }
  }

  /** With any seat empty, from every reachable state, every philosopher who is at the table and has
      not stopped can be brought to eat, without anyone being told to stop. */
  lemma EveryoneCanEat(s0: State, acts: seq<Action>, e: nat, i: nat) returns (more: seq<Action>)
    requires Init(s0) && Legal(s0, acts) && e < |s0.pcs| && s0.pcs[e] == Absent
    requires i < |Exec(s0, acts).pcs| && Active(Exec(s0, acts).pcs[i])
    ensures Legal(Exec(s0, acts), more) && NobodyStops(more)
    ensures i < |Exec(Exec(s0, acts), more).pcs| && Exec(Exec(s0, acts), more).pcs[i] == Eating
  {
    InvRun(s0, acts);
    more := CanEat(Exec(s0, acts), e, i);
  }

  lemma CanEat(s: State, e: nat, i: nat) returns (acts: seq<Action>)
    requires Inv(s) && e < |s.pcs| && s.pcs[e] == Absent && i < |s.pcs| && Active(s.pcs[i])
    ensures Legal(s, acts) && NobodyStops(acts)
    ensures i < |Exec(s, acts).pcs| && Exec(s, acts).pcs[i] == Eating
  {
    var rest := MealsFinish(s, e);
    var meal := EatsAlone(Exec(s, rest), i);
    RunThen(s, rest, meal);
    acts := rest + meal;
  }

  lemma EatsAlone(s: State, i: nat) returns (acts: seq<Action>)
    requires Inv(s) && i < |s.pcs| && s.pcs[i] == Thinking
    requires forall j :: 0 <= j < |s.pcs| ==> !InMeal(s.pcs[j])
    ensures Legal(s, acts) && NobodyStops(acts)
    ensures |Exec(s, acts).pcs| == |s.pcs| && Exec(s, acts).pcs[i] == Eating
  {
    var s1 := Do(s, GoEat(i));
    var s2 := Do(s1, LockFirst(i));
    var s3 := Do(s2, LockSecond(i));
    RunOne(s2, LockSecond(i), []);
    RunOne(s1, LockFirst(i), [LockSecond(i)]);
    RunOne(s, GoEat(i), [LockFirst(i)] + [LockSecond(i)]);
    acts := [GoEat(i)] + ([LockFirst(i)] + [LockSecond(i)]);
  }

  lemma RunOne(s: State, a: Action, rest: seq<Action>)
    requires Enabled(s, a) && Legal(Do(s, a), rest)
    ensures Legal(s, [a] + rest) && Exec(s, [a] + rest) == Exec(Do(s, a), rest)
  {
    assert ([a] + rest)[1..] == rest;
  }

  lemma {:induction false} RunThen(s: State, acts: seq<Action>, more: seq<Action>)
    requires Legal(s, acts) && Legal(Exec(s, acts), more)
    ensures Legal(s, acts + more) && Exec(s, acts + more) == Exec(Exec(s, acts), more)
    decreases |acts|
  {
    if acts == [] {
      assert acts + more == more;
    } else {
      RunThen(Do(s, acts[0]), acts[1..], more);
      assert (acts + more)[1..] == acts[1..] + more;
    }
  }

  /** A philosopher has stopped exactly if he was told to. */
  lemma {:induction false} OnlyStopStops(s: State, acts: seq<Action>, i: nat)
    requires Legal(s, acts) && i < |s.pcs| && s.pcs[i] != Stopped
    ensures |Exec(s, acts).pcs| == |s.pcs|
    ensures Exec(s, acts).pcs[i] == Stopped <==> Stop(i) in acts
    decreases |acts|
  {
    if acts != [] {
      var s1 := Do(s, acts[0]);
      assert acts == [acts[0]] + acts[1..];
      if acts[0] == Stop(i) {
        StaysStopped(s1, acts[1..], i);
      } else {
        OnlyStopStops(s1, acts[1..], i);
      }
    }
  }

  lemma {:induction false} StaysStopped(s: State, acts: seq<Action>, i: nat)
    requires Legal(s, acts) && i < |s.pcs| && s.pcs[i] == Stopped
    ensures |Exec(s, acts).pcs| == |s.pcs| && Exec(s, acts).pcs[i] == Stopped
    decreases |acts|
  {
    if acts != [] { StaysStopped(Do(s, acts[0]), acts[1..], i); }
  }

  // ----- The deadlock is real -----

  /** From seat i on, everyone takes the first fork. */
  function AllTakeFirst(i: nat, n: nat): seq<Action>
    requires i <= n
    decreases n - i
  {
    if i == n then [] else [GoEat(i), LockFirst(i)] + AllTakeFirst(i + 1, n)
  }

  lemma {:induction false} TakeFirst(s: State, i: nat)
    requires i <= |s.pcs| == |s.forks| && |s.pcs| >= 2
    requires forall j :: 0 <= j < i ==> s.pcs[j] == HasFirst
    requires forall j :: i <= j < |s.pcs| ==> s.pcs[j] == Thinking && s.forks[j] == None
    ensures Legal(s, AllTakeFirst(i, |s.pcs|)) && Circle(Exec(s, AllTakeFirst(i, |s.pcs|)))
    decreases |s.pcs| - i
  {
    var n := |s.pcs|;
    if i < n {
      var acts := AllTakeFirst(i, n);
      var s1 := Do(s, GoEat(i));
      var s2 := Do(s1, LockFirst(i));
      TakeFirst(s2, i + 1);
      assert acts[1..][0] == LockFirst(i) && acts[1..][1..] == AllTakeFirst(i + 1, n);
      assert Legal(s1, acts[1..]);
    }
  }

  /** With every seat taken, whatever their number, some schedule does end in the circle. */
  lemma DeadlockReachable(s0: State)
    requires Init(s0) && forall i :: 0 <= i < |s0.pcs| ==> s0.pcs[i] == Thinking
    ensures exists acts :: Legal(s0, acts) && Stuck(Exec(s0, acts))
  {
    TakeFirst(s0, 0);
    StuckIffCircle(s0, AllTakeFirst(0, |s0.pcs|));
  }
}
