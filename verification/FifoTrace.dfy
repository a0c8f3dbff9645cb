/**
  What the FIFO calls do, read off the steps of a run alone, and that a call which
  is still running can always be finished.
 */
module FifoTrace {
  import opened Counts
  import opened FifoDevice

  // ---------- each call, from its own steps ----------

  /** A call as its steps tell it: how it was entered, the words it has moved, and
      whether a signal or a fault has ended it and another call has woken the queue
      since it last joined. */
  datatype Story = Story(side: Side, bytes: nat, words: seq<Word>, ended: bool, woken: bool)

  /** The latest call of each thread, and the words writers have put in, in order. */
  datatype Log = Log(told: map<Tid, Story>, put: seq<Word>)

  function Tell(log: Log, st: Step): Log {
    match st
    case Enter(t, side, bytes) => log.(told := log.told[t := Story(side, bytes, [], false, false)])
    case MoveWord(t, w) =>
      if t !in log.told then log
      else
        var h := log.told[t];
        Log(log.told[t := h.(words := h.words + [w])], if h.side == Writer then log.put + [w] else log.put)
    case Fault(t) => if t in log.told then log.(told := log.told[t := log.told[t].(ended := true)]) else log
    case Interrupt(t) => if t in log.told then log.(told := log.told[t := log.told[t].(ended := true)]) else log
    case Join(t) => if t in log.told then log.(told := log.told[t := log.told[t].(woken := false)]) else log
    case WakeAll(t) =>
      log.(told := map u | u in log.told :: if u == t then log.told[u] else log.told[u].(woken := true))
    case _ => log
  }

  function Told(log: Log, steps: seq<Step>): Log
    decreases |steps|
  {
    if steps == [] then log else Told(Tell(log, steps[0]), steps[1..])
  }

  /** An error return is due to a signal, a fault or a bad count. */
  predicate AsTold(c: Call, h: Story) {
    && c.side == h.side && c.asked == h.bytes && c.io == h.words
    && (c.pc == Gone <==> h.ended || (h.bytes % 4 != 0 && c.pc != Start))
  }

  /** A call on the queue is woken exactly if another has woken the queue since it joined. */
  predicate WokenAsTold(c: Call, h: Story) { Queued(c.pc) ==> c.woken == h.woken }


  predicate Matches(s: State, log: Log, t: Tid) {
    (t in s.calls <==> t in log.told) && (t in s.calls ==> AsTold(s.calls[t], log.told[t]))
  }

  predicate Heard(s: State, log: Log, t: Tid) {
    t in s.calls && t in log.told ==> WokenAsTold(s.calls[t], log.told[t])
  }

  ghost predicate Follow(s: State, log: Log) {
    s.written == log.put && forall t :: Matches(s, log, t) && Heard(s, log, t)
  }

  lemma TellWoken(s: State, log: Log, st: Step, t: Tid)
    requires Matches(s, log, t) && Heard(s, log, t) && Enabled(s, st)
    ensures Heard(Do(s, st), Tell(log, st), t)
  {
    hide AsTold;
  }

  lemma TellOwn(s: State, log: Log, st: Step)
    requires Inv(s) && Matches(s, log, st.t) && Enabled(s, st)
    ensures Matches(Do(s, st), Tell(log, st), st.t)
  {
    if !st.Enter? { assert InOrder(s, st.t); }
    hide Exclusive, Stream;
  }

  lemma TellOther(s: State, log: Log, st: Step, u: Tid)
    requires Inv(s) && Matches(s, log, u) && Enabled(s, st) && u != st.t
    ensures Matches(Do(s, st), Tell(log, st), u)
  {
    if u in s.calls { OthersUntouched(s, st, u); }
    assert u in Do(s, st).calls <==> u in s.calls;
    hide Inv, Do, Enabled;
  }

  lemma TellWords(s: State, log: Log, st: Step)
    requires Matches(s, log, st.t) && Enabled(s, st) && s.written == log.put
    ensures Do(s, st).written == Tell(log, st).put
  {}

  lemma {:induction false} ToldKeeps(s: State, log: Log, steps: seq<Step>, s': State)
    requires Inv(s) && Follow(s, log) && Runs(s, steps, s')
    ensures Follow(s', Told(log, steps))
    decreases |steps|
  {
    hide Inv, Do, Enabled, Tell, Matches, Heard;
    if steps != [] {
      var st := steps[0];
      forall t ensures Matches(Do(s, st), Tell(log, st), t) {
        if t == st.t { TellOwn(s, log, st); } else { TellOther(s, log, st, t); }
      }
      forall t ensures Heard(Do(s, st), Tell(log, st), t) { TellWoken(s, log, st, t); }
      TellWords(s, log, st);
      StepKeeps(s, st);
      ToldKeeps(Do(s, st), Tell(log, st), steps[1..], s');
    }
  }

  /** In every run the words in the stream are those the writers' steps carry, in
      order; each call has moved the words of its own steps; and it has returned an
      error if and only if a signal or a fault ended it, or its count is not a multiple
      of four and it has looked at it.  A call on the queue is woken exactly if another has
      woken the queue since it joined. */
  lemma CallsAreAsTold(steps: seq<Step>, s: State, t: Tid)
    requires Runs(Init, steps, s)
    ensures s.written == Told(Log(map[], []), steps).put
    ensures t in s.calls <==> t in Told(Log(map[], []), steps).told
    ensures t in s.calls ==> var h := Told(Log(map[], []), steps).told[t]; AsTold(s.calls[t], h) && WokenAsTold(s.calls[t], h)
  {
    hide AsTold, WokenAsTold;
    ToldKeeps(Init, Log(map[], []), steps, s);
    assert Matches(s, Told(Log(map[], []), steps), t) && Heard(s, Told(Log(map[], []), steps), t);
  }

  /** In every run a sleeper goes on only after another call has woken the queue since it
      joined. */
  lemma SleepsUntilWoken(steps: seq<Step>, s: State, t: Tid)
    requires Runs(Init, steps, s) && Enabled(s, Resume(t))
    ensures var told := Told(Log(map[], []), steps).told; t in told && told[t].woken
  {
    CallsAreAsTold(steps, s, t);
  }

  // ---------- every running call can be finished ----------

  /** Nobody is signalled or faults, and t is not entered anew. */
  ghost predicate Unforced(steps: seq<Step>, t: Tid) {
    forall st | st in steps :: !st.Fault? && !st.Interrupt? && (st.Enter? ==> st.t != t)
  }

  predicate Running(c: Call) { c.pc != Done && c.pc != Gone && c.asked % 4 == 0 }

  /** What call t does next when nothing is in its way. */
  function NextStep(s: State, t: Tid): Step
    requires t in s.calls
  {
    var c := s.calls[t];
    match c.pc
    case Start => Down(t)
    case Check => Look(t)
    case Prepare => Join(t)
    case Test => Try(t)
    case Sleep => Resume(t)
    case Relock => DownAgain(t)
    case Move => MoveWord(t, if c.side == Reader && s.fifo != [] then s.fifo[0] else 0)
    case Unlock => Up(t)
    case _ => WakeAll(t)
  }

  function Rank(c: Call): nat {
    match c.pc
    case Sleep => 308
    case Prepare => 307
    case Test => 306
    case Relock => 305
    case Start => 305
    case Check => 304
    case Move => if |c.io| <= 256 then 259 - |c.io| else 2
    case Unlock => 1
    case _ => 0
  }

  /** Nothing is in the way of t: the semaphore is free or its own, there is something
      to move, and if it sleeps it has been woken. */
  predicate Clear(s: State, t: Tid) {
    t in s.calls && Running(s.calls[t]) &&
    var c := s.calls[t];
    && (c.pc in {Start, Prepare, Test, Sleep, Relock} ==> s.lock == None)
    && (c.pc in {Start, Prepare, Test, Sleep, Relock, Check} ==> Ready(c.side, |s.fifo|))
    && (c.pc == Sleep ==> c.woken)
  }

  /** What one step of t leaves of the others, and of the fill level. */
  predicate Spares(s: State, s': State, t: Tid, v: Tid) {
    && (v in s'.calls <==> v in s.calls)
    && (v in s.calls && v != t ==> s'.calls[v].(woken := s.calls[v].woken) == s.calls[v]
                                   && (s.calls[v].woken ==> s'.calls[v].woken))
  }

  predicate LevelMoves(s: State, s': State, t: Tid) {
    t in s.calls && t in s'.calls && s'.calls[t].side == s.calls[t].side && s'.calls[t].asked == s.calls[t].asked
    && |s'.fifo| == (if s.calls[t].side == Writer then |s.fifo| + |s'.calls[t].io| - |s.calls[t].io|
                     else |s.fifo| - (|s'.calls[t].io| - |s.calls[t].io|))
  }

  /** The next step of t is possible, brings it nearer its end, and only it moves. */
  predicate Advances(s: State, t: Tid)
    requires t in s.calls
  {
    var st := NextStep(s, t);
    && Enabled(s, st) && !st.Enter? && !st.Fault? && !st.Interrupt? && st.t == t
    && var s' := Do(s, st);
    && (if s.calls[t].pc == Wake then At(s', t, Done) else Clear(s', t) && Rank(s'.calls[t]) < Rank(s.calls[t]))
    && (s.lock == None || s.lock == Some(t) ==> s'.lock == None || s'.lock == Some(t))
    && LevelMoves(s, s', t)
  }

  lemma StepOfT(s: State, t: Tid)
    requires Inv(s) && Clear(s, t)
    ensures Advances(s, t)
  {
    assert InOrder(s, t);
    assert Holds(s.calls[t].pc) ==> s.lock == Some(t);
    assert s.lock == Some(t) ==> Holds(s.calls[t].pc);
    hide Exclusive, Stream, AllProgress;
    if s.calls[t].pc == Move {
      MovingStep(s, t);
    } else if s.calls[t].pc in {Check, Unlock, Wake} {
      hide Progress;
      LateStep(s, t);
    } else {
      hide Progress;
      EarlyStep(s, t);
    }
  }

  lemma EarlyStep(s: State, t: Tid)
    requires Clear(s, t) && s.calls[t].pc in {Start, Prepare, Test, Sleep, Relock}
    ensures Advances(s, t)
  {}

  lemma LateStep(s: State, t: Tid)
    requires Clear(s, t) && s.calls[t].pc in {Check, Unlock, Wake} && (s.calls[t].pc != Wake ==> s.lock == Some(t))
    requires s.calls[t].pc == Check ==> s.calls[t].io == []
    ensures Advances(s, t)
  {}

  lemma MovingStep(s: State, t: Tid)
    requires InOrder(s, t) && s.calls[t].pc == Move && Running(s.calls[t]) && (s.lock == None || s.lock == Some(t))
    ensures Advances(s, t)
  {}

  lemma StepSpares(s: State, t: Tid, v: Tid)
    requires t in s.calls && Enabled(s, NextStep(s, t)) && !NextStep(s, t).Enter?
    ensures Spares(s, Do(s, NextStep(s, t)), t, v)
    ensures s.calls[t].pc == Wake && v in s.calls && v != t && Queued(s.calls[v].pc) ==>
              Do(s, NextStep(s, t)).calls[v].woken
  {}

  lemma RunsCons(s: State, st: Step, steps: seq<Step>, s': State)
    requires Enabled(s, st) && Runs(Do(s, st), steps, s')
    ensures Runs(s, [st] + steps, s')
  {
    assert ([st] + steps)[1..] == steps;
  }

  /** The others are where they were, and those who sleep or are about to are woken. */
  ghost predicate Others(s: State, s': State, t: Tid) {
    forall v :: Spares(s, s', t, v) && (v in s.calls && v != t && Queued(s.calls[v].pc) ==> s'.calls[v].woken)
  }

  lemma OthersWoken(s: State, t: Tid)
    requires t in s.calls && s.calls[t].pc == Wake && Enabled(s, NextStep(s, t))
    ensures Others(s, Do(s, NextStep(s, t)), t)
  {
    var s' := Do(s, NextStep(s, t));
    forall v ensures Spares(s, s', t, v) && (v in s.calls && v != t && Queued(s.calls[v].pc) ==> s'.calls[v].woken) {
      StepSpares(s, t, v);
    }
  }

  lemma OthersLater(s: State, t: Tid, s': State)
    requires t in s.calls && Enabled(s, NextStep(s, t)) && !NextStep(s, t).Enter? && Others(Do(s, NextStep(s, t)), s', t)
    ensures Others(s, s', t)
  {
    var m := Do(s, NextStep(s, t));
    forall v ensures Spares(s, s', t, v) && (v in s.calls && v != t && Queued(s.calls[v].pc) ==> s'.calls[v].woken) {
      StepSpares(s, t, v);
      assert Spares(m, s', t, v);
    }
  }

  /** Steps of t alone, none of them a signal, a fault or a new call. */
  ghost predicate Own(steps: seq<Step>, t: Tid) {
    forall st | st in steps :: st.t == t && !st.Enter? && !st.Fault? && !st.Interrupt?
  }

  /** With nothing in its way a call finishes by its own steps. */
  lemma {:induction false} GoOn(s: State, t: Tid) returns (steps: seq<Step>, s': State)
    requires Inv(s) && Clear(s, t)
    ensures Runs(s, steps, s') && At(s', t, Done) && Inv(s') && Own(steps, t)
    ensures Others(s, s', t) && LevelMoves(s, s', t)
    ensures s.lock == None || s.lock == Some(t) ==> s'.lock == None
    decreases Rank(s.calls[t])
  {
    hide Inv, Do, Enabled, Runs, Others;
    var st := NextStep(s, t);
    StepOfT(s, t);
    StepKeeps(s, st);
    var next := Do(s, st);
    if s.calls[t].pc == Wake {
      OthersWoken(s, t);
      DoneHoldsNothing(next, t);
      RunsNothing(next);
      steps, s' := [], next;
    } else {
      steps, s' := GoOn(next, t);
      OthersLater(s, t, s');
    }
    RunsCons(s, st, steps, s');
    steps := [st] + steps;
  }

  lemma RunsNothing(s: State)
    ensures Runs(s, [], s)
  {}

  lemma DoneHoldsNothing(s: State, t: Tid)
    requires Inv(s) && At(s, t, Done)
    ensures s.lock != Some(t)
  {}

  /** Whoever holds the semaphore gives it back; nobody else is touched. */
  lemma {:induction false} FreeLock(s: State, u: Tid) returns (steps: seq<Step>, s': State)
    requires Inv(s) && s.lock == Some(u)
    ensures Runs(s, steps, s') && Inv(s') && s'.lock == None && Own(steps, u)
    ensures forall v | v != u :: (v in s'.calls <==> v in s.calls) && (v in s.calls ==> s'.calls[v] == s.calls[v])
    decreases Rank(s.calls[u])
  {
    hide Inv, Runs;
    HolderStep(s, u);
    var st := NextStep(s, u);
    StepKeeps(s, st);
    var next := Do(s, st);
    steps, s' := [], next;
    RunsNothing(next);
    if next.lock != None { steps, s' := FreeLock(next, u); }
    RunsCons(s, st, steps, s');
    steps := [st] + steps;
    hide Do;
  }

  lemma HolderStep(s: State, u: Tid)
    requires Inv(s) && s.lock == Some(u)
    ensures u in s.calls
    ensures var st := NextStep(s, u);
            && Enabled(s, st) && st.t == u && !st.Enter? && !st.Fault? && !st.Interrupt?
            && var s' := Do(s, st);
            && (s'.lock == None || (s'.lock == Some(u) && u in s'.calls && Rank(s'.calls[u]) < Rank(s.calls[u])))
            && forall v | v != u :: (v in s'.calls <==> v in s.calls) && (v in s.calls ==> s'.calls[v] == s.calls[v])
  {
    assert InOrder(s, u);
  }

  lemma UpperBound(keys: set<Tid>) returns (b: Tid)
    ensures forall x | x in keys :: x < b
  {
    b := 0;
    if keys != {} {
      var x :| x in keys;
      b := UpperBound(keys - {x});
      if b <= x { b := x + 1; }
      forall y | y in keys ensures y < b { if y != x { assert y in keys - {x}; } }
    }
  }

  /** The side of a call that can move a word now and leaves something for the other
      caller: the opposite one if possible. */
  function HelperSide(side: Side, level: nat): Side {
    var opposite := if side == Writer then Reader else Writer;
    if Ready(opposite, level) then opposite else side
  }

  lemma HelperEnters(s: State, t: Tid, u: Tid)
    requires Inv(s) && s.lock == None && t in s.calls && u !in s.calls
    ensures var side := HelperSide(s.calls[t].side, |s.fifo|);
            var st := Enter(u, side, 4);
            && Enabled(s, st)
            && var m := Do(s, st);
            && Inv(m) && Clear(m, u) && m.lock == None && m.fifo == s.fifo && t in m.calls && m.calls[t] == s.calls[t]
            && m.calls[u].io == [] && m.calls[u].asked == 4 && m.calls[u].side == side && m.calls[u].pc == Start
  {
    StepKeeps(s, Enter(u, HelperSide(s.calls[t].side, |s.fifo|), 4));
    hide Exclusive, AllProgress;
  }

  lemma HelperLeaves(side: Side, level: nat, after: nat)
    requires level <= DEPTH && Ready(HelperSide(side, level), level)
    requires after == if HelperSide(side, level) == Writer then level + 1 else level - 1
    ensures Ready(side, after)
  {}

  /** A new call for one word, after which the semaphore is free, there is something to
      move for this side, and every sleeper is woken. */
  lemma Helper(s: State, t: Tid) returns (steps: seq<Step>, s': State)
    requires Inv(s) && s.lock == None && t in s.calls
    ensures Runs(s, steps, s') && Inv(s') && s'.lock == None && Unforced(steps, t)
    ensures t in s'.calls && s'.calls[t].(woken := s.calls[t].woken) == s.calls[t]
    ensures Ready(s.calls[t].side, |s'.fifo|) && (s.calls[t].pc == Sleep ==> s'.calls[t].woken)
  {
    var u := UpperBound(s.calls.Keys);
    assert t in s.calls.Keys;
    assert u !in s.calls.Keys;
    var side := HelperSide(s.calls[t].side, |s.fifo|);
    var st := Enter(u, side, 4);
    HelperEnters(s, t, u);
    var m := Do(s, st);
    StreamOf(s);
    hide Inv, Do, Enabled, Clear, Runs, HelperSide;
    steps, s' := GoOn(m, u);
    MovedOne(s', u);
    HelperReady(m, u);
    HelperLeaves(s.calls[t].side, |s.fifo|, |s'.fifo|);
    assert Spares(m, s', u, t);
    RunsCons(s, st, steps, s');
    steps := [st] + steps;
  }

  lemma StreamOf(s: State)
    requires Inv(s)
    ensures |s.fifo| <= DEPTH
  {}

  lemma HelperReady(m: State, u: Tid)
    requires Clear(m, u) && m.calls[u].pc == Start
    ensures Ready(m.calls[u].side, |m.fifo|)
  {}

  /** A finished call for four bytes has moved one word. */
  lemma MovedOne(s: State, u: Tid)
    requires Inv(s) && At(s, u, Done)
    ensures s.calls[u].asked == 4 ==> |s.calls[u].io| == 1
    ensures |s.fifo| <= DEPTH
  {
    assert InOrder(s, u);
  }

  lemma RunsThen(s: State, a: seq<Step>, m: State, b: seq<Step>, s': State, t: Tid)
    requires Runs(s, a, m) && Runs(m, b, s') && Unforced(a, t) && Unforced(b, t)
    ensures Runs(s, a + b, s') && Unforced(a + b, t)
  {
    RunsAppend(s, a, m, b, s');
  }

  lemma OwnIsUnforced(steps: seq<Step>, u: Tid, t: Tid)
    requires Own(steps, u)
    ensures Unforced(steps, t)
  {}

  /** The semaphore is made free if somebody else has it. */
  lemma Unlocked(s: State, t: Tid) returns (steps: seq<Step>, s': State)
    requires Inv(s) && t in s.calls && s.lock != Some(t)
    ensures Runs(s, steps, s') && Inv(s') && s'.lock == None && Unforced(steps, t)
    ensures t in s'.calls && s'.calls[t] == s.calls[t]
  {
    hide Inv, Runs;
    steps, s' := [], s;
    RunsNothing(s);
    if s.lock.Some? {
      steps, s' := FreeLock(s, s.lock.value);
      OwnIsUnforced(steps, s.lock.value, t);
    }
  }

  /** A call that waits for the semaphore, for words or for room is finished after
      whoever has the semaphore and one more call. */
  lemma FinishWaiting(s: State, t: Tid) returns (steps: seq<Step>, s': State)
    requires Inv(s) && t in s.calls && Running(s.calls[t]) && s.calls[t].pc in {Start, Prepare, Test, Sleep, Relock}
    requires s.lock != Some(t)
    ensures Runs(s, steps, s') && At(s', t, Done) && Unforced(steps, t)
  {
    hide Inv, Runs;
    var a, m := Unlocked(s, t);
    var b, n := Helper(m, t);
    var c;
    c, s' := GoOn(n, t);
    OwnIsUnforced(c, t, t);
    RunsThen(s, a, m, b, n, t);
    RunsThen(s, a + b, n, c, s', t);
    steps := a + b + c;
  }

  /** From every reachable state, every call with a good count that has not returned
      can be finished, with no signal, no fault and without being entered again. */
  lemma CanFinish(before: seq<Step>, s: State, t: Tid) returns (steps: seq<Step>, s': State)
    requires Runs(Init, before, s) && t in s.calls && Running(s.calls[t])
    ensures Runs(s, steps, s') && At(s', t, Done) && Unforced(steps, t)
  {
    RunKeeps(Init, before, s);
    LockOfHolder(s, t);
    hide Runs, Inv;
    if s.calls[t].pc in {Start, Prepare, Test, Sleep, Relock} {
      steps, s' := FinishWaiting(s, t);
    } else if s.calls[t].pc == Check && !Ready(s.calls[t].side, |s.fifo|) {
      var st := Look(t);
      StepKeeps(s, st);
      steps, s' := FinishWaiting(Do(s, st), t);
      RunsCons(s, st, steps, s');
      steps := [st] + steps;
    } else {
      steps, s' := GoOn(s, t);
      OwnIsUnforced(steps, t, t);
    }
  }

  lemma LockOfHolder(s: State, t: Tid)
    requires Inv(s) && t in s.calls
    ensures s.lock == Some(t) <==> Holds(s.calls[t].pc)
  {}
}
