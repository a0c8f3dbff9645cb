/**
  What the delay statistics mean, read off the steps of a run alone: no counter, no
  registers and no lock, only how often the timer has ticked since its period was
  last written.
 */
module TimerTrace {
  import opened IntervalTimer
  import opened TimerRace

  /** target is the interval asked for last, n the one whose period is written, ticks
      the ticks since then; pending is whether it has run out since the last clear;
      latched is the delay at the last latch, delays those recorded since the last
      reset; changing and handling are whether an interval change or an interrupt has
      begun and not ended. */
  datatype Trace = Trace(target: nat, n: nat, ticks: nat, pending: bool, latched: nat, delays: seq<nat>,
                         changing: bool, handling: bool)

  /** A timer of period p ticks p + 1 times from one reload to the next, and reloads
      when the period is written. */
  function SinceReload(rate: Word, tr: Trace): nat { tr.ticks % (NewPeriod(rate, tr.n) + 1) }

  function Observe(rate: Word, tr: Trace, st: Step): Trace {
    match st
    case Tick => tr.(ticks := tr.ticks + 1, pending := tr.pending || SinceReload(rate, tr) == NewPeriod(rate, tr.n))
    case Request(n) => tr.(target := n, changing := true)
    case SetterLeave => tr.(changing := false)
    case Dispatch => tr.(handling := true)
    case HandlerExit => tr.(handling := false)
    case SetterPutLow => tr.(ticks := 0)
    case SetterPutHigh => tr.(ticks := 0, n := tr.target)
    case HandlerLatch => tr.(latched := SinceReload(rate, tr))
    case HandlerClear => tr.(pending := false)
    case HandlerRecord => tr.(delays := tr.delays + [tr.latched])
    case SetterReset => tr.(delays := [])
    case _ => tr
  }

  function Observed(rate: Word, tr: Trace, steps: seq<Step>): Trace
    decreases |steps|
  {
    if steps == [] then tr else Observed(rate, Observe(rate, tr, steps[0]), steps[1..])
  }

  const START := Trace(10, 10, 0, false, 0, [], false, false)

  /** The counter counts down from the period what the trace counts up. */
  predicate CounterTracks(s: State, tr: Trace) {
    && s.n == tr.target && s.timer.to == tr.pending
    && (s.setter != PutHigh ==>
          && Period(s.timer) == NewPeriod(s.rate, tr.n)
          && s.timer.counter == Period(s.timer) - SinceReload(s.rate, tr))
    && (s.setter == PutHigh ==> tr.ticks == 0)
  }

  predicate HandlerTracks(s: State, tr: Trace) {
    && (s.handler == ReadSnap ==> s.timer.snap == Period(s.timer) - tr.latched)
    && (s.handler.ReadPeriod? ==> s.handler.snap == Period(s.timer) - tr.latched)
    && (s.handler.Record? ==> s.handler.elapsed == tr.latched)
  }

  predicate Tracks(s: State, tr: Trace) {
    && CounterTracks(s, tr) && HandlerTracks(s, tr) && s.stats.delays == tr.delays
    && tr.changing == (s.setter != Free) && tr.handling == (s.handler != Resting)
  }

  lemma NextTick(k: nat, p: nat)
    ensures (k + 1) % (p + 1) == if k % (p + 1) == p then 0 else k % (p + 1) + 1
  {
    var q, r := k / (p + 1), k % (p + 1);
    assert k == q * (p + 1) + r;
    if r == p {
      assert k + 1 == (q + 1) * (p + 1) + 0;
      Remainder(k + 1, q + 1, p + 1, 0);
    } else {
      Remainder(k + 1, q, p + 1, r + 1);
    }
  }

  lemma Remainder(x: nat, q: nat, d: nat, r: nat)
    requires r < d && x == q * d + r
    ensures x % d == r
  {
    assert x == d * q + r;
    Quotient(x, d, q, r);
    assert x == d * (x / d) + x % d;
  }

  lemma TickStep(s: State, tr: Trace)
    requires CounterTracks(s, tr) && s.setter != PutHigh && Enabled(s, Tick)
    ensures CounterTracks(Do(s, Tick), Observe(s.rate, tr, Tick))
  {
    hide NewPeriod;
    NextTick(tr.ticks, NewPeriod(s.rate, tr.n));
  }

  lemma CounterStep(s: State, tr: Trace, st: Step)
    requires Inv(s) && CounterTracks(s, tr) && Enabled(s, st)
    ensures CounterTracks(Do(s, st), Observe(s.rate, tr, st))
  {
    hide NewPeriod, Extremes;
    if st.Tick? {
      TickStep(s, tr);
    } else {
      hide SinceReload;
      if st.SetterPutHigh? { JoinHalves(NewPeriod(s.rate, s.n)); }
      JustReloaded(s.rate, Observe(s.rate, tr, st));
    }
  }

  lemma JustReloaded(rate: Word, tr: Trace)
    ensures tr.ticks == 0 ==> SinceReload(rate, tr) == 0
  {}

  lemma Zero(p: nat)
    ensures 0 % (p + 1) == 0
  {}

  lemma HandlerStep(s: State, tr: Trace, st: Step)
    requires Inv(s) && Tracks(s, tr) && Enabled(s, st)
    ensures HandlerTracks(Do(s, st), Observe(s.rate, tr, st))
    ensures var s', tr' := Do(s, st), Observe(s.rate, tr, st);
            && s'.stats.delays == tr'.delays
            && tr'.changing == (s'.setter != Free) && tr'.handling == (s'.handler != Resting)
  {
    hide NewPeriod, Extremes, SinceReload;
    if s.setter in {PutLow, PutHigh, Reset, Restart} { HandlerRests(s); }
  }

  lemma {:induction false} TraceKeeps(s: State, tr: Trace, steps: seq<Step>, s': State)
    requires Inv(s) && Tracks(s, tr) && Runs(s, steps, s')
    ensures Tracks(s', Observed(s.rate, tr, steps))
    decreases |steps|
  {
    hide Inv, CounterTracks, HandlerTracks, Enabled, Observe;
    if steps != [] {
      CounterStep(s, tr, steps[0]);
      HandlerStep(s, tr, steps[0]);
      StepKeeps(s, steps[0]);
      SameRate(s, steps[0]);
      TraceKeeps(Do(s, steps[0]), Observe(s.rate, tr, steps[0]), steps[1..], s');
    }
  }

  lemma SameRate(s: State, st: Step)
    requires Enabled(s, st)
    ensures Do(s, st).rate == s.rate
  {}

  /** In every run each delay recorded since the last reset is the number of ticks from
      the last reload of the timer to the latch, in the order of the interrupts, max and
      min are the extremes of exactly those, and a timeout is pending exactly if the
      timer has run out since the handler last cleared it.  A change or an interrupt is
      under way exactly if it has begun and not ended. */
  lemma DelaysAreTicks(rate: Word, steps: seq<Step>, s: State)
    requires Runs(Init(rate), steps, s)
    ensures s.stats.delays == Observed(rate, START, steps).delays && s.timer.to == Observed(rate, START, steps).pending
    ensures var tr := Observed(rate, START, steps);
            tr.changing == (s.setter != Free) && tr.handling == (s.handler != Resting) && s.n == tr.target <= 100
    ensures s.lock == Unlocked && s.stats.delays != [] ==>
              var delays := Observed(rate, START, steps).delays;
              && s.stats.max in delays && s.stats.min in delays
              && forall d | d in delays :: s.stats.min <= d <= s.stats.max
  {
    JoinHalves(NewPeriod(rate, 10));
    Zero(NewPeriod(rate, 10));
    Reachable(rate, [], Init(rate));
    TraceKeeps(Init(rate), START, steps, s);
    IntervalInRange(Init(rate), steps, s);
    if s.lock == Unlocked { DelaysWithinPeriod(rate, steps, s); }
  }

  lemma {:induction false} IntervalInRange(s: State, steps: seq<Step>, s': State)
    requires s.n <= 100 && Runs(s, steps, s')
    ensures s'.n <= 100
    decreases |steps|
  {
    if steps != [] { IntervalInRange(Do(s, steps[0]), steps[1..], s'); }
  }

  // ---------- changes and interrupts come to an end ----------

  predicate Writing(pc: SetterPc) { pc in {PutLow, PutHigh, Reset, Restart, Leave} }
  predicate Waiting(pc: SetterPc) { pc in {Look, Yield, Retake} }

  function Stage(pc: SetterPc): nat {
    match pc
    case Leave => 1 case Restart => 2 case Reset => 3 case PutHigh => 4 case PutLow => 5 case _ => 6
  }

  /** What ends an interval change: first the wait, then the setter's own writes. */
  function TowardsEnd(s: State): Step {
    match s.setter
    case PutLow => SetterPutLow
    case PutHigh => SetterPutHigh
    case Reset => SetterReset
    case Restart => SetterRestart
    case Leave => SetterLeave
    case _ => NextStep(s)
  }

  /** The change ends with its own interval set, and the timer running unless that is 0. */
  ghost predicate Ends(s: State, steps: seq<Step>, s': State) {
    && Runs(s, steps, s') && s'.setter == Free && s'.n == s.n
    && Period(s'.timer) == NewPeriod(s.rate, s.n) && s'.timer.run == (s.n > 0)
  }

  lemma StepTowardsEnd(s: State)
    requires Inv(s) && (Writing(s.setter) || Waiting(s.setter)) && !(InWait(s) && s.handler == Resting)
    ensures Enabled(s, TowardsEnd(s))
    ensures var s' := Do(s, TowardsEnd(s));
            && Inv(s') && s'.n == s.n && s'.rate == s.rate && !(InWait(s') && s'.handler == Resting)
            && if s.setter == Leave then s'.setter == Free
               else && (Writing(s'.setter) || Waiting(s'.setter))
                    && (Stage(s'.setter) < Stage(s.setter)
                        || (Waiting(s'.setter) && Waiting(s.setter)
                            && (HandlerRank(s'.handler) < HandlerRank(s.handler)
                                || (s'.handler == s.handler && SetterRank(s') < SetterRank(s)))))
  {
    hide Registers, Extremes, NewPeriod;
    StepKeeps(s, TowardsEnd(s));
  }

  lemma {:induction false} ChangeCanEnd(s: State) returns (steps: seq<Step>, s': State)
    requires Inv(s) && (Writing(s.setter) || Waiting(s.setter)) && !(InWait(s) && s.handler == Resting)
    ensures Ends(s, steps, s')
    decreases Stage(s.setter), HandlerRank(s.handler), SetterRank(s)
  {
    var st := TowardsEnd(s);
    StepTowardsEnd(s);
    var next := Do(s, st);
    hide Do, Enabled, SetterRank, HandlerRank;
    if next.setter == Free {
      steps, s' := [], next;
      assert Ends(next, steps, s') by { hide Extremes, NewPeriod; }
    } else {
      steps, s' := ChangeCanEnd(next);
    }
    hide Inv;
    RunsCons(s, st, steps, s');
    steps := [st] + steps;
  }

  /** In every reachable state from the wait on, an interval change can end, with the
      interval it was asked for, if and only if it does not wait for a timeout whose
      interrupt was never dispatched. */
  lemma ChangeEndsIff(rate: Word, steps: seq<Step>, s: State)
    requires Runs(Init(rate), steps, s) && (Writing(s.setter) || Waiting(s.setter))
    ensures (exists more, s' :: Ends(s, more, s')) <==> !(InWait(s) && s.handler == Resting)
  {
    Reachable(rate, steps, s);
    hide Inv;
    if InWait(s) && s.handler == Resting {
      forall more, s' ensures !Ends(s, more, s') {
        if Runs(s, more, s') { StuckForever(s, more, s'); }
      }
    } else {
      var more, s' := ChangeCanEnd(s);
    }
  }

  /** What the handler does next, once it has the lock or can get it. */
  function HandlerNext(h: HandlerPc): Step {
    match h
    case Resting => Dispatch
    case Spinning => HandlerLock
    case Latch => HandlerLatch
    case ReadSnap => HandlerReadSnap
    case ReadPeriod(_) => HandlerReadPeriod
    case Record(_) => HandlerRecord
    case Clear => HandlerClear
    case Exit => HandlerExit
  }

  /** The handler by itself: it notes one delay and clears the timeout. */
  ghost predicate Handles(s: State, steps: seq<Step>, s': State) {
    && Runs(s, steps, s') && s'.handler == Resting
    && (s'.timer.to ==> s.handler == Exit && s.timer.to)
    && |s'.stats.delays| == |s.stats.delays| + if HandlerRank(s.handler) >= 3 then 1 else 0
  }

  lemma HandlerMoves(s: State)
    requires Inv(s) && s.setter == Free && s.handler != Resting
    ensures Enabled(s, HandlerNext(s.handler))
    ensures var s' := Do(s, HandlerNext(s.handler));
            && Inv(s') && s'.setter == Free && HandlerRank(s'.handler) == HandlerRank(s.handler) - 1
            && s'.timer.to == (s.timer.to && s.handler != Clear)
            && |s'.stats.delays| == |s.stats.delays| + if s.handler.Record? then 1 else 0
  {
    hide Registers, Extremes;
    StepKeeps(s, HandlerNext(s.handler));
  }

  lemma {:induction false} HandlerCanFinish(s: State) returns (steps: seq<Step>, s': State)
    requires Inv(s) && s.setter == Free && s.handler != Resting
    ensures Handles(s, steps, s')
    decreases HandlerRank(s.handler)
  {
    var st := HandlerNext(s.handler);
    HandlerMoves(s);
    hide Inv, Do, Enabled;
    var next := Do(s, st);
    if next.handler == Resting {
      steps, s' := [], next;
    } else {
      steps, s' := HandlerCanFinish(next);
    }
    RunsCons(s, st, steps, s');
    steps := [st] + steps;
  }

  /** In every run, between changes, a timeout of a timer set to run can be taken, noted as
      one more delay and cleared, by the handler alone. */
  lemma TimeoutCanBeHandled(rate: Word, before: seq<Step>, s: State) returns (steps: seq<Step>, s': State)
    requires Runs(Init(rate), before, s) && s.setter == Free && s.n > 0 && s.timer.to && s.handler == Resting
    ensures Runs(s, steps, s') && s'.handler == Resting && !s'.timer.to
    ensures |s'.stats.delays| == |s.stats.delays| + 1
  {
    Reachable(rate, before, s);
    TimeoutInterrupts(rate, before, s);
    StepKeeps(s, Dispatch);
    hide Inv;
    steps, s' := HandlerCanFinish(Do(s, Dispatch));
    RunsCons(s, Dispatch, steps, s');
    steps := [Dispatch] + steps;
  }

  // ---------- what an interval means ----------

  /** Of the next k ticks, how many raise the timeout bit of a timer that is left running
      and whose timeouts are cleared at once. */
  function Timeouts(s: State, k: nat): nat
    requires s.timer.run
    decreases k
  {
    if k == 0 then 0
    else
      var next := Do(s.(timer := s.timer.(to := false)), Tick);
      (if next.timer.to then 1 else 0) + Timeouts(next, k - 1)
  }

  lemma {:induction false} TimeoutsOfTicks(s: State, k: nat)
    requires s.timer.run && s.timer.counter <= Period(s.timer)
    ensures Timeouts(s, k) == (k + Period(s.timer) - s.timer.counter) / (Period(s.timer) + 1)
    decreases k
  {
    var p := Period(s.timer);
    if k == 0 {
      Quotient(p - s.timer.counter, p + 1, 0, p - s.timer.counter);
    } else {
      var next := Do(s.(timer := s.timer.(to := false)), Tick);
      assert Period(next.timer) == p;
      TimeoutsOfTicks(next, k - 1);
      if s.timer.counter == 0 { OneMore(k - 1, p + 1); }
    }
  }

  lemma OneMore(x: nat, d: nat)
    requires d > 0
    ensures (x + d) / d == x / d + 1
  {
    assert x + d == d * (x / d + 1) + x % d;
    Quotient(x + d, d, x / d + 1, x % d);
  }

  /** In every run, between changes and just after a reload, the query returns how often
      the timer will run out in the next second of its clock.  That is never fewer than the
      interval that was set, and exactly that if and only if the remainder of the clock
      rate is below its quotient. */
  lemma QueryCountsTimeouts(rate: Word, steps: seq<Step>, s: State)
    requires Runs(Init(rate), steps, s) && s.setter == Free && 0 < s.n <= rate
    requires s.timer.counter == Period(s.timer)
    ensures s.timer.run && Query(s) == Interval(Timeouts(s, rate)) && Timeouts(s, rate) >= s.n
    ensures Timeouts(s, rate) == s.n <==> rate % s.n < rate / s.n
  {
    assert s.rate == rate && s.timer.run && Period(s.timer) == NewPeriod(rate, s.n) by { Reachable(rate, steps, s); }
    hide Runs, Period, Timeouts, NewPeriod, ReadInterval;
    InASecond(rate, s.n);
    SecondOfTicks(s, s.n, rate / s.n);
    ReadOfPeriod(rate, s.n, rate / s.n);
  }

  lemma SecondOfTicks(s: State, n: nat, q: nat)
    requires 0 < n <= s.rate && q == s.rate / n && q > 0 && s.timer.run && s.timer.counter == Period(s.timer) == NewPeriod(s.rate, n)
    ensures Timeouts(s, s.rate) == s.rate / q
  {
    hide Period, Timeouts, NewPeriod;
    TimeoutsOfTicks(s, s.rate);
    PeriodFits(s.rate, n);
    assert s.rate + Period(s.timer) - s.timer.counter == s.rate;
  }

  lemma ReadOfPeriod(rate: Word, n: nat, q: nat)
    requires 0 < n <= rate && q == rate / n && q > 0
    ensures ReadInterval(rate, NewPeriod(rate, n)) == Interval(rate / q)
  {
    hide NewPeriod;
    PeriodPlusOne(rate, n);
  }

  lemma InASecond(rate: Word, n: nat)
    requires 0 < n <= rate
    ensures rate / n > 0 && rate / (rate / n) >= n
    ensures rate / (rate / n) == n <==> rate % n < rate / n
  {
    QuotientOfQuotient(rate, n);
    if rate % n < rate / n {
      Quotient(rate % n, rate / n, 0, rate % n);
    } else {
      PositiveQuotient(rate % n, rate / n);
    }
  }

  lemma PeriodFits(rate: Word, n: nat)
    requires 0 < n <= rate
    ensures NewPeriod(rate, n) + 1 == rate / n
  {
    QuotientOfQuotient(rate, n);
    AtMost(rate, n);
  }
}
