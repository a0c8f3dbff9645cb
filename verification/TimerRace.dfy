/**
  Interval changes racing the interrupt handler.  The timer ticks by itself; the
  setter is the ioctl, one at a time under the device semaphore; the handler runs
  on another processor and waits for the same spin lock.
 */
module TimerRace {
  import opened IntervalTimer

  /** lo and hi are the period halves; to is the timeout bit, ito its interrupt
      enable; snap is the latched counter. */
  datatype Timer = Timer(lo: nat, hi: nat, counter: nat, snap: nat, run: bool, ito: bool, to: bool)

  datatype Lock = Unlocked | BySetter | ByHandler

  datatype SetterPc =
    | Free        // no interval change in progress
    | Enter       // about to take the lock
    | Stop        // about to stop the timer
    | Look        // about to read the timeout bit
    | Yield       // a timeout is pending: about to give up the lock
    | Retake      // about to take the lock back
    | PutLow | PutHigh | Reset | Restart | Leave

  datatype HandlerPc =
    | Resting
    | Spinning                     // dispatched, waiting for the lock
    | Latch                        // about to latch the counter
    | ReadSnap
    | ReadPeriod(snap: nat)
    | Record(elapsed: nat)
    | Clear                        // about to clear the timeout bit
    | Exit

  /** delays are the ones recorded since the last reset of max and min. */
  datatype Stats = Stats(max: nat, min: nat, delays: seq<nat>)

  /** n is the interval being set, or the one set last. */
  datatype State = State(rate: Word, timer: Timer, lock: Lock, setter: SetterPc, n: nat, handler: HandlerPc, stats: Stats)

  datatype Step =
    | Tick
    | Dispatch                     // the processor takes the interrupt
    | HandlerLock | HandlerLatch | HandlerReadSnap | HandlerReadPeriod | HandlerRecord | HandlerClear | HandlerExit
    | Request(n: nat)
    | SetterLock | SetterStop | SetterLook | SetterYield | SetterRetake
    | SetterPutLow | SetterPutHigh | SetterReset | SetterRestart | SetterLeave

  const NO_STATS := Stats(0, 0xFFFF_FFFF, [])

  function Period(t: Timer): nat { Join(t.lo, t.hi) }

  /** The driver as probed: ten interrupts a second, timer running. */
  function Init(rate: Word): State {
    var p := NewPeriod(rate, 10);
    State(rate, Timer(Low(p), High(p), p, 0, true, true, false), Unlocked, Free, 10, Resting, NO_STATS)
  }

  predicate Enabled(s: State, st: Step) {
    match st
    case Tick => s.timer.run
    case Dispatch => s.handler == Resting && s.timer.to && s.timer.ito
    case HandlerLock => s.handler == Spinning && s.lock == Unlocked
    case HandlerLatch => s.handler == Latch
    case HandlerReadSnap => s.handler == ReadSnap
    case HandlerReadPeriod => s.handler.ReadPeriod?
    case HandlerRecord => s.handler.Record?
    case HandlerClear => s.handler == Clear
    case HandlerExit => s.handler == Exit
    case Request(n) => s.setter == Free && n <= 100
    case SetterLock => s.setter == Enter && s.lock == Unlocked
    case SetterStop => s.setter == Stop
    case SetterLook => s.setter == Look
    case SetterYield => s.setter == Yield
    case SetterRetake => s.setter == Retake && s.lock == Unlocked
    case SetterPutLow => s.setter == PutLow
    case SetterPutHigh => s.setter == PutHigh
    case SetterReset => s.setter == Reset
    case SetterRestart => s.setter == Restart
    case SetterLeave => s.setter == Leave
  }

  /** A period write reloads the counter. */
  function Reloaded(t: Timer): Timer { t.(counter := Period(t)) }

  /** The 32-bit difference of the period and the latched counter. */
  function Elapsed(period: nat, snap: nat): (d: nat)
    ensures d < 0x1_0000_0000
  {
    (period - snap) % 0x1_0000_0000
  }

  function Noted(s: Stats, d: nat): Stats {
    Stats(if d > s.max then d else s.max, if d < s.min then d else s.min, s.delays + [d])
  }

  function Do(s: State, st: Step): State
    requires Enabled(s, st)
  {
    var t := s.timer;
    match st
    case Tick =>
      if t.counter > 0 then s.(timer := t.(counter := t.counter - 1))
      else s.(timer := t.(counter := Period(t), to := true))
    case Dispatch => s.(handler := Spinning)
    case HandlerLock => s.(handler := Latch, lock := ByHandler)
    case HandlerLatch => s.(handler := ReadSnap, timer := t.(snap := t.counter))
    case HandlerReadSnap => s.(handler := ReadPeriod(t.snap))
    case HandlerReadPeriod => s.(handler := Record(Elapsed(Period(t), s.handler.snap)))
    case HandlerRecord => s.(handler := Clear, stats := Noted(s.stats, s.handler.elapsed))
    case HandlerClear => s.(handler := Exit, timer := t.(to := false))
    case HandlerExit => s.(handler := Resting, lock := Unlocked)
    case Request(n) => s.(setter := Enter, n := n)
    case SetterLock => s.(setter := Stop, lock := BySetter)
    case SetterStop => s.(setter := Look, timer := t.(run := false, ito := false))
    case SetterLook => s.(setter := if t.to then Yield else PutLow)
    case SetterYield => s.(setter := Retake, lock := Unlocked)
    case SetterRetake => s.(setter := Look, lock := BySetter)
    case SetterPutLow => s.(setter := PutHigh, timer := Reloaded(t.(lo := Low(NewPeriod(s.rate, s.n)))))
    case SetterPutHigh => s.(setter := Reset, timer := Reloaded(t.(hi := High(NewPeriod(s.rate, s.n)))))
    case SetterReset => s.(setter := Restart, stats := NO_STATS)
    case SetterRestart => s.(setter := Leave, timer := if s.n > 0 then t.(run := true, ito := true) else t)
    case SetterLeave => s.(setter := Free, lock := Unlocked)
  }

  ghost predicate Runs(s: State, steps: seq<Step>, s': State)
    decreases |steps|
  {
    if steps == [] then s == s' else Enabled(s, steps[0]) && Runs(Do(s, steps[0]), steps[1..], s')
  }

  // ---------- invariant ----------

  predicate SetterHolds(s: State) { s.setter !in {Free, Enter, Retake} }
  predicate HandlerHolds(s: State) { s.handler != Resting && s.handler != Spinning }

  /** The lock has the owner whose code is inside, and a dispatched handler has not
      yet cleared the timeout that caused it. */
  predicate Locking(s: State) {
    && (s.lock == BySetter <==> SetterHolds(s))
    && (s.lock == ByHandler <==> HandlerHolds(s))
    && (s.handler != Resting && s.handler != Exit ==> s.timer.to)
  }

  /** From the stop to the restart the timer stands still; past the wait no
      timeout is pending. */
  predicate Stopped(s: State) {
    && (s.setter in {Look, Yield, Retake, PutLow, PutHigh, Reset, Restart} ==> !s.timer.run && !s.timer.ito)
    && (s.setter in {PutLow, PutHigh, Reset, Restart} ==> !s.timer.to)
    && (s.setter == Retake && s.handler == Exit ==> !s.timer.to)
  }

  predicate Registers(s: State) {
    && s.timer.lo < 0x1_0000 && s.timer.hi < 0x1_0000
    && s.timer.counter <= Period(s.timer)
    && (s.handler == ReadSnap ==> s.timer.snap <= Period(s.timer))
    && (s.handler.ReadPeriod? ==> s.handler.snap <= Period(s.timer))
    && (s.handler.Record? ==> s.handler.elapsed <= Period(s.timer))
    && (s.setter == PutHigh ==> s.timer.lo == Low(NewPeriod(s.rate, s.n)))
    && (s.setter in {Reset, Restart, Leave, Free} ==> Period(s.timer) == NewPeriod(s.rate, s.n))
    && (s.setter in {Leave, Free} ==> s.timer.run == s.timer.ito == (s.n > 0))
  }

  /** max and min are the largest and smallest delay since the reset. */
  ghost predicate Extremes(s: Stats, bound: nat) {
    if s.delays == [] then s.max == 0 && s.min == 0xFFFF_FFFF
    else
      && s.max in s.delays && s.min in s.delays
      && forall d | d in s.delays :: s.min <= d <= s.max <= bound
  }

  ghost predicate Inv(s: State) {
    && Registers(s) && Locking(s) && Stopped(s)
    && (s.setter !in {PutHigh, Reset} ==> Extremes(s.stats, Period(s.timer)))
    && (s.setter == Restart ==> s.stats == NO_STATS)
  }

  /** Past the wait nothing of the handler is left. */
  lemma HandlerRests(s: State)
    requires Locking(s) && Stopped(s) && s.setter in {PutLow, PutHigh, Reset, Restart}
    ensures s.handler == Resting
  {}

  lemma NotedKeeps(s: Stats, d: nat, bound: nat)
    requires Extremes(s, bound) && d <= bound < 0x1_0000_0000
    ensures Extremes(Noted(s, d), bound)
  {}

  lemma ElapsedIsExact(t: Timer, snap: nat)
    requires t.lo < 0x1_0000 && t.hi < 0x1_0000 && snap <= Period(t)
    ensures Elapsed(Period(t), snap) == Period(t) - snap
  {}

  lemma RegistersKeep(s: State, st: Step)
    requires Inv(s) && Enabled(s, st)
    ensures Registers(Do(s, st))
  {
    hide NewPeriod, Extremes, Elapsed;
    if st.HandlerReadPeriod? { ElapsedIsExact(s.timer, s.handler.snap); }
    if st.SetterPutHigh? { JoinHalves(NewPeriod(s.rate, s.n)); }
    if s.setter in {PutLow, PutHigh, Reset, Restart} { HandlerRests(s); }
  }

  lemma LockingKeeps(s: State, st: Step)
    requires Inv(s) && Enabled(s, st)
    ensures Locking(Do(s, st)) && Stopped(Do(s, st))
  {
    hide NewPeriod, Extremes;
    if s.setter in {PutLow, PutHigh, Reset, Restart} { HandlerRests(s); }
  }

  lemma StatsKeep(s: State, st: Step)
    requires Inv(s) && Enabled(s, st)
    ensures var s' := Do(s, st);
            && (s'.setter !in {PutHigh, Reset} ==> Extremes(s'.stats, Period(s'.timer)))
            && (s'.setter == Restart ==> s'.stats == NO_STATS)
  {
    if s.setter in {PutLow, PutHigh, Reset, Restart} { HandlerRests(s); }
    if st.HandlerRecord? { NotedKeeps(s.stats, s.handler.elapsed, Period(s.timer)); }
  }

  lemma StepKeeps(s: State, st: Step)
    requires Inv(s) && Enabled(s, st)
    ensures Inv(Do(s, st))
  {
    RegistersKeep(s, st);
    LockingKeeps(s, st);
    StatsKeep(s, st);
  }

  lemma {:induction false} RunKeeps(s: State, steps: seq<Step>, s': State)
    requires Inv(s) && Runs(s, steps, s')
    ensures Inv(s') && s'.rate == s.rate
    decreases |steps|
  {
    if steps != [] {
      StepKeeps(s, steps[0]);
      RunKeeps(Do(s, steps[0]), steps[1..], s');
    }
  }

  lemma Reachable(rate: Word, steps: seq<Step>, s: State)
    requires Runs(Init(rate), steps, s)
    ensures Inv(s) && s.rate == rate
  {
    JoinHalves(NewPeriod(rate, 10));
    RunKeeps(Init(rate), steps, s);
  }

  // ---------- main results ----------

  /** In every run, a step that writes the period finds the timer stopped, no
      timeout pending and no handler waiting for the lock or holding it. */
  lemma PeriodWrittenAtRest(rate: Word, steps: seq<Step>, s: State, st: Step)
    requires Runs(Init(rate), steps, s) && Enabled(s, st)
    requires st.SetterPutLow? || st.SetterPutHigh? || Period(Do(s, st).timer) != Period(s.timer)
    ensures !s.timer.run && !s.timer.to && s.handler == Resting && s.lock == BySetter
  {
    Reachable(rate, steps, s);
    HandlerRests(s);
  }

  /** In every run, what a reader sees under the lock are the largest and smallest
      delay since the last reset, all within the current period. */
  lemma DelaysWithinPeriod(rate: Word, steps: seq<Step>, s: State)
    requires Runs(Init(rate), steps, s) && s.lock == Unlocked
    ensures Extremes(s.stats, Period(s.timer))
    ensures s.stats.delays != [] ==> s.stats.min <= s.stats.max <= Period(s.timer)
  {
    Reachable(rate, steps, s);
  }

  /** In every run, the 32-bit subtraction of the handler does not wrap. */
  lemma DelayDoesNotWrap(rate: Word, steps: seq<Step>, s: State)
    requires Runs(Init(rate), steps, s) && s.handler.ReadPeriod?
    ensures Do(s, HandlerReadPeriod).handler.elapsed == Period(s.timer) - s.handler.snap
  {
    assert Registers(s) by { Reachable(rate, steps, s); }
    hide Runs, Elapsed, NewPeriod;
    ElapsedIsExact(s.timer, s.handler.snap);
  }

  /** In every run, between changes, a timeout of a timer that is set to run reaches the
      processor: the interrupt can be taken. */
  lemma TimeoutInterrupts(rate: Word, steps: seq<Step>, s: State)
    requires Runs(Init(rate), steps, s) && s.setter == Free && s.n > 0 && s.timer.to && s.handler == Resting
    ensures Enabled(s, Dispatch) && Enabled(s, Tick)
  {
    Reachable(rate, steps, s);
  }

  /** What the interval query computes from the registers. */
  function Query(s: State): Reading {
    if !s.timer.run then Interval(0) else ReadInterval(s.rate, Period(s.timer))
  }

  /** Between interval changes, the query returns the interval set last if and only if
      the timer is stopped or the remainder of the clock rate is below its quotient; so
      for every clock rate of at least the interval's square. */
  lemma QueryReturnsSetInterval(rate: Word, steps: seq<Step>, s: State)
    requires Runs(Init(rate), steps, s) && s.setter == Free
    ensures Query(s) == Interval(s.n) <==> s.n == 0 || rate % s.n < rate / s.n
    ensures rate >= s.n * s.n ==> Query(s) == Interval(s.n)
  {
    Reachable(rate, steps, s);
    if s.n > 0 {
      ReadBack(rate, s.n);
      if rate >= s.n * s.n { ReadBackFromSquare(rate, s.n); }
    }
  }

  // ---------- the wait for a pending timeout ----------

  predicate InWait(s: State) { s.setter in {Look, Yield, Retake} && s.timer.to }

  /** When no handler is on its way, the setter waits for ever: the stop has taken
      the interrupt away. */
  lemma {:induction false} StuckForever(s: State, steps: seq<Step>, s': State)
    requires Inv(s) && InWait(s) && s.handler == Resting && Runs(s, steps, s')
    ensures InWait(s') && s'.handler == Resting && s'.timer == s.timer
    decreases |steps|
  {
    if steps != [] {
      StepKeeps(s, steps[0]);
      StuckForever(Do(s, steps[0]), steps[1..], s');
    }
  }

  function HandlerRank(h: HandlerPc): nat {
    match h
    case Resting => 0 case Exit => 1 case Clear => 2 case Record(_) => 3
    case ReadPeriod(_) => 4 case ReadSnap => 5 case Latch => 6 case Spinning => 7
  }

  function SetterRank(s: State): nat {
    match s.setter
    case Look => if s.handler == Spinning then 2 else 0
    case Yield => if s.handler == Spinning then 1 else 2
    case _ => if s.handler == Spinning then 0 else 1
  }

  /** Who should move so that the wait ends. */
  function NextStep(s: State): Step {
    match s.handler
    case Latch => HandlerLatch
    case ReadSnap => HandlerReadSnap
    case ReadPeriod(_) => HandlerReadPeriod
    case Record(_) => HandlerRecord
    case Clear => HandlerClear
    case Exit => HandlerExit
    case _ =>
      if s.setter == Look then SetterLook else if s.setter == Yield then SetterYield
      else if s.handler == Spinning then HandlerLock else SetterRetake
  }

  /** A handler on its way clears the timeout and lets the setter go on. */
  lemma {:induction false} WaitCanEnd(s: State) returns (steps: seq<Step>, s': State)
    requires Inv(s) && s.setter in {Look, Yield, Retake} && (s.timer.to ==> s.handler != Resting)
    ensures GetsPast(s, steps, s')
    decreases HandlerRank(s.handler), SetterRank(s)
  {
    var st := NextStep(s);
    StepKeeps(s, st);
    var next := Do(s, st);
    if next.setter == PutLow {
      steps, s' := [st], next;
    } else {
      steps, s' := WaitCanEnd(next);
      steps := [st] + steps;
    }
  }

  ghost predicate GetsPast(s: State, steps: seq<Step>, s': State) { Runs(s, steps, s') && s'.setter == PutLow }

  /** A setter that finds a timeout pending can ever get past the wait if and only
      if the interrupt was already dispatched when it stopped the timer. */
  lemma WaitEndsIffDispatched(rate: Word, steps: seq<Step>, s: State)
    requires Runs(Init(rate), steps, s) && InWait(s)
    ensures (exists more, s' :: GetsPast(s, more, s')) <==> s.handler != Resting
  {
    Reachable(rate, steps, s);
    if s.handler == Resting {
      forall more, s' ensures !GetsPast(s, more, s') {
        if Runs(s, more, s') { StuckForever(s, more, s'); }
      }
    } else {
      var more, s' := WaitCanEnd(s);
      assert GetsPast(s, more, s');
    }
  }

  /** The waiting without end does happen: a timeout just before the stop. */
  lemma StuckIsReachable() returns (steps: seq<Step>, s: State)
    ensures Runs(Init(10), steps, s) && InWait(s) && s.handler == Resting
  {
    var s0 := Init(10);
    assert NewPeriod(10, 10) == 0 && Low(0) == 0 && High(0) == 0;
    hide NewPeriod, Low, High;
    var s1 := Do(s0, Tick);
    var s2 := Do(s1, Request(5));
    var s3 := Do(s2, SetterLock);
    s := Do(s3, SetterStop);
    assert Runs(s, [], s) && InWait(s) && s.handler == Resting;
    hide Do, Enabled, Runs, InWait;
    RunsCons(s3, SetterStop, [], s);
    RunsCons(s2, SetterLock, [SetterStop] + [], s);
    RunsCons(s1, Request(5), [SetterLock] + ([SetterStop] + []), s);
    steps := [Tick] + ([Request(5)] + ([SetterLock] + ([SetterStop] + [])));
    RunsCons(s0, Tick, steps[1..], s);
    assert steps == [Tick] + steps[1..];
  }

  lemma RunsCons(s: State, st: Step, steps: seq<Step>, s': State)
    requires Enabled(s, st) && Runs(Do(s, st), steps, s')
    ensures Runs(s, [st] + steps, s')
  {
    assert ([st] + steps)[1..] == steps;
  }
}
