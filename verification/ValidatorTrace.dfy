/**
  The validator's calls read off the steps of a run alone, and that a call which has
  got past its semaphore or mutex can always be finished.
 */
module ValidatorTrace {
  import opened Validator
  import opened ValidatorReplies

  // ---------- each call, from the steps ----------

  datatype Fate = UnderWay | Returned | Failed

  /** A call as the steps tell it: how it was entered, the numbers of the requests it
      has posted, and how it ended. */
  datatype Story = Story(op: Op, msg: nat, rounds: nat, reqs: seq<nat>, fate: Fate)

  /** The latest call of each thread; how many requests have been posted; who has the
      flag and the driver mutex; and the messages of the writes that returned. */
  datatype Log = Log(told: map<Tid, Story>, next: nat, flag: Flag, mode: Mode, signed: seq<nat>)

  const NOTHING := Log(map[], 1, ArmOwns, Closed, [])

  function End(log: Log, t: Tid, fate: Fate): Log
    requires t in log.told
  {
    var h := log.told[t];
    log.(told := log.told[t := h.(fate := fate)], mode := if h.op == SysfsOp then Closed else log.mode)
  }

  function Tell(log: Log, st: Step): Log {
    match st
    case OpenToken => log.(mode := TokenOpen)
    case OpenPlain => log.(mode := PlainOpen)
    case Release => log.(mode := Closed)
    case Enter(t, op, rounds, msg) =>
      log.(told := log.told[t := Story(op, msg, rounds, [], UnderWay)],
           mode := if op == SysfsOp then Sysfs(t) else log.mode)
    case CheckFlag(t) => if t in log.told && log.flag == NiosOwns then End(log, t, Failed) else log
    case Fail(t) => if t in log.told then End(log, t, Failed) else log
    case PostRequest(t) =>
      if t !in log.told then log
      else
        var h := log.told[t];
        log.(told := log.told[t := h.(reqs := h.reqs + [log.next])], next := log.next + 1)
    case RaiseFlag(_) => log.(flag := NiosOwns)
    case NiosDone => log.(flag := ArmOwns)
    case TakeResult(t) => if t in log.told && log.told[t].op == SysfsOp then End(log, t, Returned) else log
    case CopyToUser(t) => if t in log.told && log.told[t].op == PlainOp then End(log, t, Returned) else log
    case Up(t) =>
      if t !in log.told then log
      else
        var h := log.told[t];
        End(log, t, Returned).(signed := if h.op == WriteOp then log.signed + [h.msg] else log.signed)
    case _ => log
  }

  function Told(log: Log, steps: seq<Step>): Log
    decreases |steps|
  {
    if steps == [] then log else Told(Tell(log, steps[0]), steps[1..])
  }

  predicate AsTold(c: Call, h: Story) {
    && c.op == h.op && c.msg == h.msg && c.total == h.rounds && c.reqs == h.reqs
    && (c.pc == Done <==> h.fate == Returned) && (c.pc == Gone <==> h.fate == Failed)
  }

  predicate Matches(s: State, log: Log, t: Tid) {
    (t in s.calls <==> t in log.told) && (t in s.calls ==> AsTold(s.calls[t], log.told[t]))
  }

  predicate Shared(s: State, log: Log) {
    s.next == log.next && s.posted == log.next - 1 && s.flag == log.flag && s.mode == log.mode && s.msgs == log.signed
  }

  ghost predicate Follow(s: State, log: Log) { Shared(s, log) && forall t :: Matches(s, log, t) }

  lemma TellOwn(s: State, log: Log, st: Step, t: Tid)
    requires Placed(s, t) && Shared(s, log) && Matches(s, log, t) && Enabled(s, st) && By(st, t)
    ensures Matches(Do(s, st), Tell(log, st), t)
  {}

  lemma TellOther(s: State, log: Log, st: Step, t: Tid)
    requires Matches(s, log, t) && Enabled(s, st) && !By(st, t)
    ensures Matches(Do(s, st), Tell(log, st), t)
  {
    OthersUntouched(s, st, t);
    TellSpares(log, st, t);
    hide Do, Enabled, Tell;
  }

  lemma TellSpares(log: Log, st: Step, t: Tid)
    requires !By(st, t)
    ensures t in Tell(log, st).told <==> t in log.told
    ensures t in log.told ==> Tell(log, st).told[t] == log.told[t]
  {}

  lemma TellShared(s: State, log: Log, st: Step)
    requires Shared(s, log) && Enabled(s, st) && (forall t :: Placed(s, t) && Matches(s, log, t))
    ensures Shared(Do(s, st), Tell(log, st))
  {
    if !(st.OpenToken? || st.OpenPlain? || st.Release? || st.NiosScratch? || st.NiosDone?) {
      assert Placed(s, st.t) && Matches(s, log, st.t);
    }
  }

  lemma {:induction false} ToldKeeps(s: State, log: Log, steps: seq<Step>, s': State)
    requires Inv(s) && Follow(s, log) && Runs(s, steps, s')
    ensures Follow(s', Told(log, steps))
    decreases |steps|
  {
    if steps != [] {
      var st := steps[0];
      forall t ensures Placed(s, t) {}
      hide Inv, Do, Enabled, Tell, Matches, Shared;
      forall t ensures Matches(Do(s, st), Tell(log, st), t) {
        if By(st, t) { TellOwn(s, log, st, t); } else { TellOther(s, log, st, t); }
      }
      TellShared(s, log, st);
      StepKeeps(s, st);
      ToldKeeps(Do(s, st), Tell(log, st), steps[1..], s');
    }
  }

  /** In every run the flag, the mutex, the requests and the messages signed are what
      the steps tell; each call has posted the requests of its own steps, has returned
      if and only if its last step has been taken, and has failed if and only if it met
      a signal, a timeout, a fault or a bad argument, or found the flag with the Nios. */
  lemma CallsAreAsTold(steps: seq<Step>, s: State, t: Tid)
    requires Runs(Init, steps, s)
    ensures Shared(s, Told(NOTHING, steps)) && Matches(s, Told(NOTHING, steps), t)
  {
    ToldKeeps(Init, NOTHING, steps, s);
  }

  /** In every run a read of the random or entropy device that has returned was given
      the replies to exactly the requests its steps posted, as many as it was entered
      for, in order. */
  lemma PlainReadIsAsTold(steps: seq<Step>, s: State, t: Tid)
    requires Runs(Init, steps, s) && t in s.calls && s.calls[t].op == PlainOp && s.calls[t].pc == Done
    ensures t in Told(NOTHING, steps).told
    ensures var h := Told(NOTHING, steps).told[t]; s.calls[t].got == h.reqs && |h.reqs| == h.rounds
  {
    CallsAreAsTold(steps, s, t);
    CallerGetsItsReplies(steps, s, t);
  }

  // ---------- every call inside can be finished ----------

  /** The Nios answers the request in the RAM and gives the flag back. */
  function NiosStep(s: State): Step { if s.result != s.posted then NiosScratch(s.posted) else NiosDone }

  /** What should happen next for call t to finish. */
  function NextStep(s: State, t: Tid): Step
    requires t in s.calls
  {
    match s.calls[t].pc
    case CopyIn => CopyFromUser(t)
    case Check => if s.flag == NiosOwns then NiosStep(s) else CheckFlag(t)
    case Post => PostRequest(t)
    case Raise => RaiseFlag(t)
    case Wait => if s.flag == NiosOwns then NiosStep(s) else Poll(t)
    case Fetch => TakeResult(t)
    case CopyOut => CopyToUser(t)
    case _ => Up(t)
  }

  function NiosRank(s: State): nat {
    if s.flag == ArmOwns then 0 else if s.result == s.posted then 1 else 2
  }

  function Rank(s: State, t: Tid): nat
    requires t in s.calls
  {
    var c := s.calls[t];
    20 * c.rounds +
    match c.pc
    case CopyIn => 12
    case Check => 9 + NiosRank(s)
    case Post => 8
    case Raise => 7
    case Wait => 3 + NiosRank(s)
    case Fetch => 2
    case CopyOut => 1
    case _ => 0
  }

  lemma StepNearer(s: State, t: Tid)
    requires t in s.calls && Inside(s.calls[t]) && Placed(s, t) && Counted(s.calls[t])
    ensures var st := NextStep(s, t);
            && Enabled(s, st) && !st.Fail? && !st.Enter? && (By(st, t) || st.NiosScratch? || st.NiosDone?)
            && var s' := Do(s, st);
            && t in s'.calls
            && (s'.calls[t].pc == Done || (Inside(s'.calls[t]) && Rank(s', t) < Rank(s, t)))
  {}

  /** Steps of t and the Nios only; t neither fails nor is entered anew. */
  ghost predicate Unforced(steps: seq<Step>, t: Tid) {
    forall st | st in steps :: !st.Fail? && !st.Enter? && (By(st, t) || st.NiosScratch? || st.NiosDone?)
  }

  lemma {:induction false} GoOn(s: State, t: Tid) returns (steps: seq<Step>, s': State)
    requires Inv(s) && AllSound(s) && t in s.calls && Inside(s.calls[t])
    ensures Runs(s, steps, s') && At(s', t, Done) && Unforced(steps, t)
    decreases Rank(s, t)
  {
    assert Placed(s, t) && Sound(s, t);
    StepNearer(s, t);
    var st := NextStep(s, t);
    StepSound(s, st);
    hide Inv, AllSound, Do, Enabled, NextStep;
    var next := Do(s, st);
    if next.calls[t].pc == Done {
      steps, s' := [], next;
    } else {
      steps, s' := GoOn(next, t);
    }
    RunsCons(s, st, steps, s');
    steps := [st] + steps;
  }

  /** From every reachable state, every call past its semaphore or mutex can be finished
      by itself and the Nios alone, without an error. */
  lemma CanFinish(before: seq<Step>, s: State, t: Tid) returns (steps: seq<Step>, s': State)
    requires Runs(Init, before, s) && t in s.calls && Inside(s.calls[t])
    ensures Runs(s, steps, s') && At(s', t, Done) && Unforced(steps, t)
  {
    Reached(before, s);
    steps, s' := GoOn(s, t);
  }
}
