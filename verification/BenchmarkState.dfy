/** The iteration protocol of `benchmark::State` (benchmark/include/benchmark/benchmark.h and
    benchmark/src/benchmark.cc): `KeepRunning`, the range-for iterator, pausing, resuming and
    skipping, and the checks `RunInThread` makes after the benchmark function returns.
    A failed CHECK aborts the program; here it gives None.  size_t arithmetic wraps. */
module BenchmarkState {
  import opened Common

  const WORD: int := 0x1_0000_0000_0000_0000

  /** `waits` counts the thread's arrivals at the start-stop barrier, `timing` is `timer_->running()`. */
  datatype Fields = Fields(
    started: bool,
    finished: bool,
    total: int,
    error: bool,
    max: int,
    timing: bool,
    waits: nat)

  /** The constructor. */
  function Make(max: int): Option<Fields>
    requires 0 <= max < WORD
  {
    if max == 0 || (max + 1) % WORD == 0 then None
    else Some(Fields(false, false, (max + 1) % WORD, false, max, false, 0))
  }

  function StopTimer(s: Fields): Option<Fields> {
    if s.timing then Some(s.(timing := false)) else None
  }

  function PauseTiming(s: Fields): Option<Fields> {
    if s.started && !s.finished && !s.error then StopTimer(s) else None
  }

  function ResumeTiming(s: Fields): Option<Fields> {
    if s.started && !s.finished && !s.error then Some(s.(timing := true)) else None
  }

  function SkipWithError(s: Fields): Fields {
    s.(error := true, total := 1, timing := false)
  }

  function StartKeepRunning(s: Fields): Option<Fields> {
    if s.started || s.finished then None
    else
      var s1 := s.(started := true, waits := s.waits + 1);
      if s.error then Some(s1) else ResumeTiming(s1)
  }

  function FinishKeepRunning(s: Fields): Option<Fields> {
    if !(s.started && (!s.finished || s.error)) then None
    else
      var s1 := if s.error then Some(s) else PauseTiming(s);
      if s1 == None then None else Some(s1.value.(total := 1, finished := true, waits := s.waits + 1))
  }

  /** The new state and the answer. */
  function KeepRunning(s: Fields): Option<(Fields, bool)> {
    var s1 := if s.started then Some(s) else StartKeepRunning(s);
    if s1 == None then None
    else
      var s2 := s1.value.(total := (s1.value.total - 1) % WORD);
      if s2.total != 0 then Some((s2, true))
      else
        var s3 := FinishKeepRunning(s2);
        if s3 == None then None else Some((s3.value, false))
  }

  /** `begin()`: the iterator's cached count. */
  function Begin(s: Fields): int {
    if s.error then 0 else s.max
  }

  /** `it != end` */
  function NotEqual(s: Fields, cached: int): Option<(Fields, bool)> {
    if cached != 0 then Some((s, true))
    else
      var s1 := FinishKeepRunning(s);
      if s1 == None then None else Some((s1.value, false))
  }

  function Iterations(s: Fields): int {
    ((s.max - s.total) % WORD + 1) % WORD
  }

  // ----- The class, updated in place -----

  class State {
    var started: bool
    var finished: bool
    var total_iterations: int
    var error_occurred: bool
    var timing: bool
    var waits: nat
    const max_iterations: int

    function Get(): Fields
      reads this
    {
      Fields(started, finished, total_iterations, error_occurred, max_iterations, timing, waits)
    }

    constructor (max_iters: int)
      requires 0 <= max_iters < WORD
      requires max_iters != 0 && (max_iters + 1) % WORD != 0
      ensures Make(max_iters) == Some(Get())
    {
      started, finished, error_occurred, timing, waits := false, false, false, false, 0;
      total_iterations := (max_iters + 1) % WORD;
      max_iterations := max_iters;
    }

    /** ok is false where the source aborts. */
    method Pause() returns (ok: bool)
      modifies this`timing
      ensures PauseTiming(old(Get())) == if ok then Some(Get()) else None
    {
      ok := started && !finished && !error_occurred && timing;
      if ok { timing := false; }
    }

    method Resume() returns (ok: bool)
      modifies this`timing
      ensures ResumeTiming(old(Get())) == if ok then Some(Get()) else None
    {
      ok := started && !finished && !error_occurred;
      if ok { timing := true; }
    }

    method Skip()
      modifies this
      ensures Get() == SkipWithError(old(Get()))
    {
      error_occurred := true;
      total_iterations := 1;
      timing := false;
    }

    method Start() returns (ok: bool)
      modifies this
      ensures var r := StartKeepRunning(old(Get())); if ok then r == Some(Get()) else r == None
    {
      ok := !started && !finished;
      if ok {
        started := true;
        waits := waits + 1;
        if !error_occurred { ok := Resume(); }
      }
    }

    method Finish() returns (ok: bool)
      modifies this
      ensures var r := FinishKeepRunning(old(Get())); if ok then r == Some(Get()) else r == None
    {
      ok := started && (!finished || error_occurred);
      if ok && !error_occurred { ok := Pause(); }
      if ok {
        total_iterations := 1;
        finished := true;
        waits := waits + 1;
      }
    }

    method KeepRunningOnce() returns (ok: bool, res: bool)
      modifies this
      ensures var r := KeepRunning(old(Get())); if ok then r == Some((Get(), res)) else r == None
    {
      ok, res := true, false;
      if !started { ok := Start(); }
      if ok {
        total_iterations := (total_iterations - 1) % WORD;
        res := total_iterations != 0;
        if !res { ok := Finish(); }
      }
    }
  }

  // ----- Any client -----

  datatype Style = WhileLoop | RangeLoop

  datatype Place = Before | InLoop | AfterLoop | Returned

  /** A thread's benchmark function: where it is, the iterator's count, the bodies begun, and
      whether it has skipped before leaving the loop. */
  datatype Client = Client(s: Fields, style: Style, place: Place, cached: int, bodies: nat, skipped: bool)

  datatype Move = Skip | Pause | Resume | Next | Return

  function OnFields(c: Client, s: Option<Fields>): Option<Client> {
    if s == None then None else Some(c.(s := s.value))
  }

  function AfterTest(c: Client, r: Option<(Fields, bool)>): Option<Client> {
    if r == None then None
    else if r.value.1 then Some(c.(s := r.value.0, place := InLoop, bodies := c.bodies + 1))
    else Some(c.(s := r.value.0, place := AfterLoop))
  }

  /** Evaluating the loop condition once more. */
  function NextTest(c: Client): Option<Client> {
    if c.style == WhileLoop then AfterTest(c, KeepRunning(c.s))
    else if c.place == InLoop then AfterTest(c.(cached := c.cached - 1), NotEqual(c.s, c.cached - 1))
    else
      var s1 := StartKeepRunning(c.s);
      if s1 == None then None else AfterTest(c.(cached := Begin(c.s)), NotEqual(s1.value, Begin(c.s)))
  }

  /** Returning to `RunInThread`, which checks the iteration count and that the timer is stopped. */
  function ReturnChecked(c: Client): Option<Client> {
    if Iterations(c.s) == c.s.max && !c.s.timing then Some(c.(place := Returned)) else None
  }

  function Do(c: Client, m: Move): Option<Client> {
    match m
    case Skip => Some(c.(s := SkipWithError(c.s), skipped := c.skipped || c.place != AfterLoop))
    case Pause => OnFields(c, PauseTiming(c.s))
    case Resume => OnFields(c, ResumeTiming(c.s))
    case Next => NextTest(c)
    case Return => ReturnChecked(c)
  }

  ghost predicate Init(c: Client) {
    && 0 < c.s.max < WORD - 1 && Make(c.s.max) == Some(c.s)
    && c.place == Before && c.bodies == 0 && !c.skipped
  }

  /** The client's moves up to the first failed CHECK, if any. */
  ghost function Run(c: Client, moves: seq<Move>): Option<Client>
    decreases |moves|
  {
    if moves == [] then Some(c)
    else if c.place == Returned || Do(c, moves[0]) == None then None
    else Run(Do(c, moves[0]).value, moves[1..])
  }

  ghost predicate Inv(c: Client) {
    var s := c.s;
    && 0 < s.max < WORD - 1
    && (s.error ==> s.total == 1 && !s.timing)
    && (c.skipped ==> s.error)
    && match c.place
       case Before =>
         !s.started && !s.finished && s.waits == 0 && c.bodies == 0 && !s.timing
         && (if s.error then c.skipped else s.total == s.max + 1)
       case InLoop =>
         s.started && !s.finished && s.waits == 1 && 1 <= c.bodies <= s.max
         && s.error == c.skipped
         && (c.style == RangeLoop ==> c.cached == s.max - c.bodies + 1)
         && (!s.error ==> s.total == if c.style == RangeLoop then s.max + 1 else s.max + 1 - c.bodies)
       case AfterLoop =>
         s.started && s.finished && s.total == 1 && !s.timing
         && (if s.error then s.waits >= 2 else s.waits == 2)
         && c.bodies <= s.max && (!c.skipped ==> c.bodies == s.max)
         && (c.style == RangeLoop ==> c.bodies == s.max || c.bodies == 0)
       case Returned =>
         Iterations(s) == s.max && !s.timing
         && (!s.error && s.finished ==> c.bodies == s.max && s.waits == 2)
  }

  /** Exactly which moves abort. */
  predicate Aborts(c: Client, m: Move) {
    match m
    case Skip => false
    case Pause => !(c.place == InLoop && !c.s.error && c.s.timing)
    case Resume => !(c.place == InLoop && !c.s.error)
    case Next =>
      || (c.place == InLoop && !c.s.error && !c.s.timing && c.bodies == c.s.max)
      || (c.place == AfterLoop && (c.style == RangeLoop || !c.s.error))
    case Return =>
      !(c.place == AfterLoop || c.s.error
        || (c.style == WhileLoop && c.place == InLoop && c.bodies == c.s.max && !c.s.timing))
  }

  lemma NextStep(c: Client)
    requires Inv(c) && c.place != Returned
    ensures Do(c, Next) == None <==> Aborts(c, Next)
    ensures Do(c, Next) != None ==> Inv(Do(c, Next).value)
  {
    if c.style == WhileLoop { WhileNext(c); } else { RangeNext(c); }
  }

  lemma WhileNext(c: Client)
    requires Inv(c) && c.place != Returned && c.style == WhileLoop
    ensures Do(c, Next) == None <==> Aborts(c, Next)
    ensures Do(c, Next) != None ==> Inv(Do(c, Next).value)
  {
  }

  lemma RangeNext(c: Client)
    requires Inv(c) && c.place != Returned && c.style == RangeLoop
    ensures Do(c, Next) == None <==> Aborts(c, Next)
    ensures Do(c, Next) != None ==> Inv(Do(c, Next).value)
  {
  }

  lemma Step(c: Client, m: Move)
    requires Inv(c) && c.place != Returned
    ensures Do(c, m) == None <==> Aborts(c, m)
    ensures Do(c, m) != None ==> Inv(Do(c, m).value)
  {
    if m == Next { NextStep(c); }
  }

  lemma {:induction false} RunKeeps(c: Client, moves: seq<Move>)
    requires Inv(c) && Run(c, moves) != None
    ensures Inv(Run(c, moves).value)
    decreases |moves|
  {
    if moves != [] {
      Step(c, moves[0]);
      RunKeeps(Do(c, moves[0]).value, moves[1..]);
    }
  }

  /** After any moves whatever that have not aborted, the next move aborts exactly in the cases
      `Aborts` lists.  Two of them are easily overlooked: a pause left open is caught only by the
      evaluation that ends the loop; and a while loop left by `break` during its last iteration
      with the timer paused passes every check although it never finished. */
  lemma AbortsExactly(c0: Client, moves: seq<Move>, m: Move)
    requires Init(c0) && Run(c0, moves) != None && Run(c0, moves).value.place != Returned
    ensures var c := Run(c0, moves).value; Do(c, m) == None <==> Aborts(c, m)
  {
    RunKeeps(c0, moves);
    Step(Run(c0, moves).value, m);
  }

  /** A return passes the checks although the loop has neither finished nor been skipped exactly if a
      `while` loop is left during its last iteration with the timer paused. */
  lemma UnfinishedReturn(c0: Client, moves: seq<Move>)
    requires Init(c0) && Run(c0, moves) != None && Run(c0, moves).value.place != Returned
    ensures var c := Run(c0, moves).value;
      Do(c, Return) != None && !c.s.error && !c.s.finished <==>
        c.style == WhileLoop && c.place == InLoop && !c.s.error && c.bodies == c.s.max && !c.s.timing
  {
    RunKeeps(c0, moves);
    Step(Run(c0, moves).value, Return);
  }

  /** It happens: one iteration, paused, then `break`. */
  lemma BreakPassesChecks()
    ensures exists c0 ::
      && Init(c0) && Run(c0, [Next, Pause, Return]) != None
      && var c := Run(c0, [Next, Pause, Return]).value;
         c.place == Returned && !c.s.finished && !c.s.error
  {
    var c0 := Client(Make(1).value, WhileLoop, Before, 0, 0, false);
    var c1 := Do(c0, Next).value;
    var c2 := Do(c1, Pause).value;
    assert Run(c2, [Return]) == Do(c2, Return) by { assert [Return][1..] == []; }
    assert [Pause, Return][1..] == [Return];
    assert [Next, Pause, Return][1..] == [Pause, Return];
    assert Init(c0);
  }

  // ----- When the timer runs -----

  /** Whether the last pause or resume of the moves is a pause. */
  function LeftPaused(paused: bool, moves: seq<Move>): bool
    decreases |moves|
  {
    if moves == [] then paused
    else LeftPaused(if moves[0] == Pause then true else if moves[0] == Resume then false else paused, moves[1..])
  }

  ghost predicate TimerOk(c: Client, paused: bool) {
    && (c.place == Before ==> !paused)
    && (c.s.timing <==> c.place == InLoop && !c.s.error && !paused)
  }

  lemma {:induction false} TimerFrom(c: Client, moves: seq<Move>, paused: bool)
    requires Inv(c) && TimerOk(c, paused) && Run(c, moves) != None
    ensures TimerOk(Run(c, moves).value, LeftPaused(paused, moves))
    decreases |moves|
  {
    if moves != [] {
      var m := moves[0];
      var now := if m == Pause then true else if m == Resume then false else paused;
      Step(c, m);
      TimerStep(c, m, paused);
      TimerFrom(Do(c, m).value, moves[1..], now);
    }
  }

  lemma TimerStep(c: Client, m: Move, paused: bool)
    requires Inv(c) && TimerOk(c, paused) && c.place != Returned && Do(c, m) != None
    ensures TimerOk(Do(c, m).value, if m == Pause then true else if m == Resume then false else paused)
  {
    NextStep(c);
  }

  /** After any moves that have not aborted the timer runs exactly if the client is inside the loop, has
      not skipped, and its last pause, if any, has been followed by a resume. */
  lemma TimerRunsExactly(c0: Client, moves: seq<Move>)
    requires Init(c0) && Run(c0, moves) != None
    ensures var c := Run(c0, moves).value;
      c.s.timing <==> c.place == InLoop && !c.s.error && !LeftPaused(false, moves)
  {
    TimerFrom(c0, moves, false);
  }

  /** A pause and a resume while the timer runs change nothing. */
  lemma PauseResumeUndone(c0: Client, moves: seq<Move>)
    requires Init(c0) && Run(c0, moves) != None
    requires Run(c0, moves).value.place == InLoop && !Run(c0, moves).value.s.error
    requires Run(c0, moves).value.s.timing
    ensures Run(Run(c0, moves).value, [Pause, Resume]) == Run(c0, moves)
  {
    RunKeeps(c0, moves);
    var c := Run(c0, moves).value;
    var paused := Do(c, Pause).value;
    assert [Pause, Resume][1..] == [Resume];
    assert Run(paused, [Resume]) == Do(paused, Resume) by { assert [Resume][1..] == []; }
  }

  // ----- Clients that follow the documented protocol -----

  predicate Allowed(c: Client, m: Move) {
    match m
    case Skip => !c.s.error
    case Pause => c.place == InLoop && !c.s.error && c.s.timing
    case Resume => c.place == InLoop && !c.s.error && !c.s.timing
    case Next => c.place == Before || (c.place == InLoop && (c.s.error || c.s.timing || c.bodies < c.s.max))
    case Return => c.place == AfterLoop || c.s.error
  }

  ghost predicate Follows(c: Client, moves: seq<Move>)
    decreases |moves|
  {
    moves == [] || (c.place != Returned && Allowed(c, moves[0])
                    && (Do(c, moves[0]) != None ==> Follows(Do(c, moves[0]).value, moves[1..])))
  }

  lemma {:induction false} FollowsRuns(c: Client, moves: seq<Move>)
    requires Inv(c) && Follows(c, moves)
    ensures Run(c, moves) != None
    decreases |moves|
  {
    if moves != [] {
      Step(c, moves[0]);
      FollowsRuns(Do(c, moves[0]).value, moves[1..]);
    }
  }

  lemma CountRight(c: Client)
    requires Inv(c)
    ensures c.place == AfterLoop || c.place == Returned ==> Iterations(c.s) == c.s.max && !c.s.timing
  {
  }

  /** Whether it finishes normally, skips before, during or after the loop, breaks after a skip or
      runs on: no CHECK fails, and on return `iterations()` equals the requested count.  A thread
      that has not skipped ran the body exactly `max` times between its two barrier arrivals. */
  lemma ProtocolHolds(c0: Client, moves: seq<Move>)
    requires Init(c0) && Follows(c0, moves)
    ensures Run(c0, moves) != None
    ensures var c := Run(c0, moves).value;
      && (c.place == AfterLoop || c.place == Returned ==> Iterations(c.s) == c.s.max && !c.s.timing)
      && (c.place == AfterLoop && !c.skipped ==> c.bodies == c.s.max)
      && (c.place == Returned && !c.s.error ==> c.bodies == c.s.max && c.s.waits == 2)
  {
    FollowsRuns(c0, moves);
    RunKeeps(c0, moves);
    ReturnedClean(c0, moves);
    CountRight(Run(c0, moves).value);
  }

  /** Only an error or the end of the loop lets a protocol-following thread return. */
  lemma {:induction false} ReturnedClean(c: Client, moves: seq<Move>)
    requires Inv(c) && Follows(c, moves) && Run(c, moves) != None
    requires c.place == Returned ==> c.s.error || c.s.finished
    ensures var c' := Run(c, moves).value; c'.place == Returned ==> c'.s.error || c'.s.finished
    decreases |moves|
  {
    if moves != [] {
      Step(c, moves[0]);
      ReturnedClean(Do(c, moves[0]).value, moves[1..]);
    }
  }

  /** When a loop test lets the body run again: a `while` loop stops at the end of the iteration
      that skipped, a range loop runs all its remaining iterations. */
  lemma LoopContinues(c0: Client, moves: seq<Move>)
    requires Init(c0) && Run(c0, moves) != None
    ensures var c := Run(c0, moves).value;
      (c.place == Before || c.place == InLoop) && Do(c, Next) != None ==>
        (Do(c, Next).value.place == InLoop <==>
          if c.place == Before then !c.s.error
          else c.bodies < c.s.max && (c.style == RangeLoop || !c.s.error))
  {
    RunKeeps(c0, moves);
  }
}
