/**
  The validator driver's handshake with the Nios processor: an ownership flag in
  shared RAM, timeouts, and, for the signing and authenticating devices, a token
  passed between a write and a read semaphore.  The two devices differ only in
  message sizes and offsets, so one token device stands for both; sysfs handlers
  and the random and entropy devices are the other callers.
 */
module Validator {
  type Tid = nat

  datatype Flag = ArmOwns | NiosOwns

  /** Who holds the driver mutex. */
  datatype Mode = Closed | TokenOpen | PlainOpen | Sysfs(t: Tid)

  /** What the global I/O buffer holds: a user's message, or the replies to requests,
      one after the other. */
  datatype Io = Message(m: nat) | Answers(reqs: seq<nat>)

  datatype Op = WriteOp | ReadOp | PlainOp | SysfsOp

  datatype Pc =
    | Start      // about to take its semaphore
    | CopyIn     // write: about to copy the user's message in
    | Check      // about to look at the flag
    | Post       // about to put its request in the RAM
    | Raise      // about to hand the flag to the Nios
    | Wait       // polling the flag
    | Fetch      // saw the flag come back, about to take the result
    | CopyOut    // about to copy the buffer to the user
    | Pass       // about to up the other semaphore
    | Done
    | Gone       // returned an error

  /** msg is the user's message (for a write); of total handshakes rounds are still to
      do; reqs are the requests posted so far, req the last of them; got are the
      requests whose replies the call has given its caller. */
  datatype Call = Call(op: Op, pc: Pc, msg: nat, total: nat, rounds: nat, req: nat, reqs: seq<nat>, got: seq<nat>)

  /** A request as the Nios finds it in the RAM: who asks, and with what message. */
  datatype Request = Request(op: Op, message: Io)

  /** posted and result are the RAM's request and result areas, by request number;
      requests are all requests ever posted, by number.  writes and delivered are the
      requests of successful writes and the replies given to readers, in order; msgs
      are the messages of those writes. */
  datatype State = State(mode: Mode, rsem: nat, wsem: nat, flag: Flag, posted: nat, result: nat,
                         io: Io, calls: map<Tid, Call>, next: nat, requests: seq<Request>,
                         writes: seq<nat>, msgs: seq<nat>, delivered: seq<nat>)

  const Init := State(Closed, 0, 0, ArmOwns, 0, 0, Message(0), map[], 1, [Request(SysfsOp, Message(0))], [], [], [])

  datatype Step =
    | OpenToken | OpenPlain | Release
    | Enter(t: Tid, op: Op, rounds: nat, msg: nat)
    | Down(t: Tid)
    | CopyFromUser(t: Tid)
    | CheckFlag(t: Tid)
    | PostRequest(t: Tid)
    | RaiseFlag(t: Tid)
    | Poll(t: Tid)
    | TakeResult(t: Tid)
    | CopyToUser(t: Tid)
    | Up(t: Tid)
    | Fail(t: Tid)                 // a signal, a timeout, a copy fault or a bad argument
    | NiosScratch(v: nat)          // the Nios works in the RAM
    | NiosDone                     // and hands the flag back with the result

  predicate Active(c: Call) { c.pc != Done && c.pc != Gone }
  predicate Inside(c: Call) { Active(c) && c.pc != Start }
  predicate TokenOp(op: Op) { op == WriteOp || op == ReadOp }

  predicate At(s: State, t: Tid, pc: Pc) { t in s.calls && s.calls[t].pc == pc }
  ghost predicate Quiet(s: State) { forall t | t in s.calls :: !Active(s.calls[t]) }

  /** Calls that may fail here: an interrupted down, a timed-out wait, a fault
      while copying, and a sysfs store that rejects its argument. */
  predicate MayFail(c: Call) {
    || c.pc in {Start, Wait, CopyIn, CopyOut}
    || (c.pc == Post && c.op == SysfsOp)
  }

  ghost predicate Enabled(s: State, st: Step) {
    match st
    case OpenToken => s.mode == Closed
    case OpenPlain => s.mode == Closed
    case Release => (s.mode == TokenOpen || s.mode == PlainOpen) && Quiet(s)
    case Enter(t, op, rounds, _) =>
      && (t in s.calls ==> !Active(s.calls[t])) && rounds > 0
      && (match op
          case PlainOp => s.mode == PlainOpen && Quiet(s)   // one caller at a time
          case SysfsOp => s.mode == Closed && rounds == 1
          case _ => s.mode == TokenOpen && rounds == 1)
    case Down(t) => At(s, t, Start) && (if s.calls[t].op == WriteOp then s.wsem > 0 else s.rsem > 0)
    case CopyFromUser(t) => At(s, t, CopyIn)
    case CheckFlag(t) => At(s, t, Check)
    case PostRequest(t) => At(s, t, Post)
    case RaiseFlag(t) => At(s, t, Raise)
    case Poll(t) => At(s, t, Wait) && s.flag == ArmOwns
    case TakeResult(t) => At(s, t, Fetch)
    case CopyToUser(t) => At(s, t, CopyOut)
    case Up(t) => At(s, t, Pass)
    case Fail(t) => t in s.calls && MayFail(s.calls[t])
    case NiosScratch(_) => s.flag == NiosOwns
    case NiosDone => s.flag == NiosOwns && s.result == s.posted
  }

  function Put(s: State, t: Tid, c: Call): State { s.(calls := s.calls[t := c]) }

  function Goto(s: State, t: Tid, pc: Pc): State
    requires t in s.calls
  {
    Put(s, t, s.calls[t].(pc := pc))
  }

  /** A call returns; a sysfs handler gives the driver mutex back. */
  function Return(s: State, t: Tid, pc: Pc): State
    requires t in s.calls
  {
    Goto(s, t, pc).(mode := if s.calls[t].op == SysfsOp then Closed else s.mode)
  }

  function Less(n: nat): nat { if n > 0 then n - 1 else 0 }

  /** The first reply in the buffer. */
  function First(io: Io): nat { if io.Answers? && io.reqs != [] then io.reqs[0] else 0 }

  /** The buffer after reply number k of a call is stored behind the ones before it. */
  function Stored(io: Io, k: int, r: nat): Io {
    Answers((if io.Answers? && 0 <= k <= |io.reqs| then io.reqs[..k] else []) + [r])
  }

  function Do(s: State, st: Step): State
    requires Enabled(s, st)
  {
    match st
    case OpenToken => s.(mode := TokenOpen, rsem := 0, wsem := 1)
    case OpenPlain => s.(mode := PlainOpen)
    case Release => s.(mode := Closed)
    case Enter(t, op, rounds, msg) =>
      Put(s, t, Call(op, if TokenOp(op) then Start else Check, msg, rounds, rounds, 0, [], []))
      .(mode := if op == SysfsOp then Sysfs(t) else s.mode)
    case Down(t) =>
      if s.calls[t].op == WriteOp then Goto(s, t, CopyIn).(wsem := s.wsem - 1)
      else Goto(s, t, CopyOut).(rsem := s.rsem - 1)
    case CopyFromUser(t) => Goto(s, t, Check).(io := Message(s.calls[t].msg))
    case CheckFlag(t) => if s.flag == ArmOwns then Goto(s, t, Post) else Return(s, t, Gone)
    case PostRequest(t) =>
      var c := s.calls[t];
      Put(s, t, c.(pc := Raise, req := s.next, reqs := c.reqs + [s.next]))
      .(posted := s.next, next := s.next + 1,
        requests := s.requests + [Request(c.op, if c.op == WriteOp then s.io else Message(0))])
    case RaiseFlag(t) => Goto(s, t, Wait).(flag := NiosOwns)
    case Poll(t) => Goto(s, t, Fetch)
    case TakeResult(t) =>
      var c := s.calls[t];
      (match c.op
       case WriteOp => Goto(s, t, Pass).(io := Answers([s.result]))
       case SysfsOp => Return(Put(s, t, c.(rounds := Less(c.rounds), got := [s.result])), t, Done)
       case _ =>
         Put(s, t, c.(pc := if c.rounds > 1 then Post else CopyOut, rounds := Less(c.rounds)))
         .(io := Stored(s.io, c.total - c.rounds, s.result)))
    case CopyToUser(t) =>
      var c := s.calls[t];
      if c.op == ReadOp then
        Put(s, t, c.(pc := Pass, got := [First(s.io)])).(delivered := s.delivered + [First(s.io)])
      else Put(s, t, c.(pc := Done, got := if s.io.Answers? then s.io.reqs else []))
    case Up(t) =>
      if s.calls[t].op == WriteOp then
        Goto(s, t, Done).(rsem := s.rsem + 1, writes := s.writes + [s.calls[t].req], msgs := s.msgs + [s.calls[t].msg])
      else Goto(s, t, Done).(wsem := s.wsem + 1)
    case Fail(t) => Return(s, t, Gone)
    case NiosScratch(v) => s.(result := v)
    case NiosDone => s.(flag := ArmOwns)
  }

  ghost predicate Runs(s: State, steps: seq<Step>, s': State)
    decreases |steps|
  {
    if steps == [] then s == s' else Enabled(s, steps[0]) && Runs(Do(s, steps[0]), steps[1..], s')
  }

  // ---------- the token and the callers ----------

  /** At most one call is past its semaphore or mutex, whatever the device. */
  ghost predicate OneInside(s: State) {
    forall t, u | t in s.calls && u in s.calls && Inside(s.calls[t]) && Inside(s.calls[u]) :: t == u
  }

  /** Each active call belongs to the device that is open, or is the sysfs handler
      that holds the mutex. */
  predicate Placed(s: State, t: Tid) {
    t in s.calls ==>
      var c := s.calls[t];
      && (Active(c) ==> s.mode == (match c.op case PlainOp => PlainOpen case SysfsOp => Sysfs(t) case _ => TokenOpen))
      && (c.pc in {Start, CopyIn, Pass} ==> TokenOp(c.op))
      && (c.op == ReadOp && Active(c) ==> c.pc in {Start, CopyOut, Pass})
      && (c.op != ReadOp && TokenOp(c.op) ==> c.pc != CopyOut)
      && (c.op == SysfsOp ==> c.pc != CopyOut)
  }

  /** Read semaphore, write semaphore and operations inside: at most one token. */
  ghost predicate OneToken(s: State) {
    s.mode == TokenOpen ==>
      && s.rsem + s.wsem <= 1
      && forall t | t in s.calls && Inside(s.calls[t]) :: s.rsem + s.wsem == 0
  }

  ghost predicate Callers(s: State) {
    OneInside(s) && (forall t :: Placed(s, t)) && OneToken(s)
    && (s.mode == Closed ==> Quiet(s))
    && (s.mode.Sysfs? ==> forall t | t in s.calls && Active(s.calls[t]) :: t == s.mode.t)
    && (s.mode.Sysfs? ==> s.mode.t in s.calls && Active(s.calls[s.mode.t]) && s.calls[s.mode.t].op == SysfsOp)
  }

  // ---------- the flag ----------

  /** Where a call stands in the handshake. */
  predicate Handshake(s: State, t: Tid) {
    t in s.calls ==>
      var c := s.calls[t];
      && (c.pc in {Post, Raise, Fetch} ==> s.flag == ArmOwns)
      && (c.pc in {Raise, Wait, Fetch} ==> c.req == s.posted)
      && (c.pc == Fetch ==> s.result == c.req)
      && c.req < s.next
  }

  /** When the processor owns the flag and no request is half posted, the result
      in the RAM answers the request in the RAM. */
  ghost predicate Answered(s: State) {
    && s.posted < s.next
    && (s.flag == ArmOwns && (forall t | t in s.calls :: s.calls[t].pc != Raise) ==> s.result == s.posted)
    && forall t :: Handshake(s, t)
  }

  // ---------- replies ----------

  /** The buffer holds the reply to the latest successful write, not yet delivered. */
  predicate Fresh(s: State) {
    s.writes != [] && var last := s.writes[|s.writes| - 1]; s.io == Answers([last]) && last !in s.delivered
  }

  predicate Pending(s: State, t: Tid) {
    t in s.calls ==>
      var c := s.calls[t];
      && (c.op == ReadOp && c.pc == CopyOut ==> Fresh(s))
      && (c.op == WriteOp && c.pc in {Raise, Wait, Fetch, Pass} ==> forall w | w in s.writes :: w < c.req)
      && (c.op == WriteOp && c.pc == Pass ==> s.io == Answers([c.req]))
  }

  ghost predicate Replies(s: State) {
    && (forall w | w in s.writes :: w < s.next)
    && (forall d | d in s.delivered :: d in s.writes)
    && (forall i, j | 0 <= i < j < |s.delivered| :: s.delivered[i] != s.delivered[j])
    && (s.mode == TokenOpen && s.rsem > 0 ==> Fresh(s))
    && (forall t :: Pending(s, t))
  }

  ghost predicate Inv(s: State) { Callers(s) && Answered(s) && Replies(s) }

  /** The step is one of call t's. */
  predicate By(st: Step, t: Tid) {
    match st
    case OpenToken => false
    case OpenPlain => false
    case Release => false
    case NiosScratch(_) => false
    case NiosDone => false
    case _ => st.t == t
  }

  /** A step leaves every other call as it is. */
  lemma OthersUntouched(s: State, st: Step, u: Tid)
    requires Enabled(s, st) && !By(st, u)
    ensures u in Do(s, st).calls <==> u in s.calls
    ensures u in s.calls ==> Do(s, st).calls[u] == s.calls[u]
  {}

  /** A call gets past its semaphore or mutex only when nobody else is there. */
  lemma EntersAlone(s: State, st: Step, t: Tid, u: Tid)
    requires Callers(s) && Enabled(s, st) && By(st, t) && t != u
    requires t in Do(s, st).calls && Inside(Do(s, st).calls[t]) && !(t in s.calls && Inside(s.calls[t]))
    ensures u in s.calls ==> !Inside(s.calls[u])
  {
    assert Placed(s, t) && Placed(s, u);
  }

  lemma OneInsideKeeps(s: State, st: Step)
    requires Callers(s) && Enabled(s, st)
    ensures OneInside(Do(s, st))
  {
    var s' := Do(s, st);
    forall t, u | t in s'.calls && u in s'.calls && Inside(s'.calls[t]) && Inside(s'.calls[u])
      ensures t == u
    {
      if t != u {
        OthersUntouched(s, st, if By(st, t) then u else t);
        if By(st, t) && !(t in s.calls && Inside(s.calls[t])) { EntersAlone(s, st, t, u); }
        if By(st, u) && !(u in s.calls && Inside(s.calls[u])) { EntersAlone(s, st, u, t); }
        if !By(st, t) && !By(st, u) { OthersUntouched(s, st, u); }
      }
    }
  }

  /** The token moves with the call that takes the step, or is lost. */
  lemma OneTokenKeeps(s: State, st: Step)
    requires Callers(s) && Enabled(s, st)
    ensures OneToken(Do(s, st))
  {
    var s' := Do(s, st);
    forall t ensures Placed(s, t) {}
    if st.Up? { assert Inside(s.calls[st.t]); }
  }

  lemma PlacedKeeps(s: State, st: Step, t: Tid)
    requires Callers(s) && Enabled(s, st)
    ensures Placed(Do(s, st), t)
  {
    assert Placed(s, t);
    if By(st, t) {
      PlacedKeepsOwn(s, st, t);
    } else {
      OthersUntouched(s, st, t);
      if t in s.calls && Active(s.calls[t]) { ModeStays(s, st, t); }
      hide Do, Enabled, Callers;
    }
  }

  lemma PlacedKeepsOwn(s: State, st: Step, t: Tid)
    requires Placed(s, t) && Enabled(s, st) && By(st, t)
    ensures Placed(Do(s, st), t)
  {}

  lemma ModeStays(s: State, st: Step, t: Tid)
    requires Callers(s) && Enabled(s, st) && !By(st, t) && t in s.calls && Active(s.calls[t])
    ensures Do(s, st).mode == s.mode
  {
    assert Placed(s, t);
    if s.mode.Sysfs? { assert t == s.mode.t; }
    if !(st.OpenToken? || st.OpenPlain? || st.Release? || st.NiosScratch? || st.NiosDone?) { assert Placed(s, st.t); }
  }

  /** A sysfs handler has the mutex only while it runs: every return gives it back. */
  lemma SysfsReleases(s: State, st: Step)
    requires Callers(s) && Enabled(s, st)
    ensures var s' := Do(s, st);
            s'.mode.Sysfs? ==> s'.mode.t in s'.calls && Active(s'.calls[s'.mode.t]) && s'.calls[s'.mode.t].op == SysfsOp
  {
    if s.mode.Sysfs? {
      assert Placed(s, s.mode.t);
      if !By(st, s.mode.t) { OthersUntouched(s, st, s.mode.t); }
    }
  }

  lemma ModeKeeps(s: State, st: Step)
    requires Callers(s) && Enabled(s, st)
    ensures var s' := Do(s, st);
            && (s'.mode == Closed ==> Quiet(s'))
            && (s'.mode.Sysfs? ==> forall t | t in s'.calls && Active(s'.calls[t]) :: t == s'.mode.t)
            && (s'.mode.Sysfs? ==> s'.mode.t in s'.calls && Active(s'.calls[s'.mode.t]) && s'.calls[s'.mode.t].op == SysfsOp)
  {
    var s' := Do(s, st);
    SysfsReleases(s, st);
    forall t | t in s'.calls && Active(s'.calls[t])
      ensures s'.mode != Closed && (s'.mode.Sysfs? ==> t == s'.mode.t)
    {
      PlacedKeeps(s, st, t);
      assert Placed(s', t);
    }
  }

  lemma CallersKeep(s: State, st: Step)
    requires Callers(s) && Enabled(s, st)
    ensures Callers(Do(s, st))
  {
    OneInsideKeeps(s, st);
    OneTokenKeeps(s, st);
    ModeKeeps(s, st);
    forall t ensures Placed(Do(s, st), t) { PlacedKeeps(s, st, t); }
  }

  /** While a call is inside, no other call touches the flag, the RAM or the buffer. */
  lemma LeftAlone(s: State, st: Step, t: Tid)
    requires Callers(s) && Enabled(s, st) && !By(st, t) && t in s.calls && Inside(s.calls[t])
    ensures var s' := Do(s, st);
            && s'.io == s.io && s'.posted == s.posted && s'.writes == s.writes && s'.delivered == s.delivered
            && (s'.flag == s.flag || st.NiosDone?) && (s'.result == s.result || st.NiosScratch?)
  {
    if !(st.OpenToken? || st.OpenPlain? || st.Release? || st.NiosScratch? || st.NiosDone? || st.Enter?) {
      assert !Inside(s.calls[st.t]);
    }
  }

  lemma HandshakeKeepsOwn(s: State, st: Step, t: Tid)
    requires Callers(s) && Answered(s) && Enabled(s, st) && By(st, t)
    ensures Handshake(Do(s, st), t)
  {
    assert Handshake(s, t);
    if st.Poll? { assert forall u | u in s.calls :: s.calls[u].pc == Raise ==> u == t; }
  }

  lemma HandshakeKeeps(s: State, st: Step, t: Tid)
    requires Callers(s) && Answered(s) && Enabled(s, st)
    ensures Handshake(Do(s, st), t)
  {
    if By(st, t) {
      HandshakeKeepsOwn(s, st, t);
    } else {
      assert Handshake(s, t);
      OthersUntouched(s, st, t);
      if t in s.calls && Inside(s.calls[t]) { LeftAlone(s, st, t); }
    }
  }

  /** A half-posted request is finished only by the call that posted it. */
  lemma ResultKeeps(s: State, st: Step)
    requires Callers(s) && Answered(s) && Enabled(s, st)
    ensures var s' := Do(s, st);
            s'.flag == ArmOwns && (forall t | t in s'.calls :: s'.calls[t].pc != Raise) ==> s'.result == s'.posted
  {
    var s' := Do(s, st);
    if st.PostRequest? { assert s'.calls[st.t].pc == Raise; }
    if s'.flag == ArmOwns && (forall t | t in s'.calls :: s'.calls[t].pc != Raise) {
      forall t | t in s.calls ensures s.calls[t].pc != Raise {
        if s.calls[t].pc == Raise && !By(st, t) { OthersUntouched(s, st, t); }
      }
    }
  }

  lemma AnsweredKeeps(s: State, st: Step)
    requires Callers(s) && Answered(s) && Enabled(s, st)
    ensures Answered(Do(s, st))
  {
    ResultKeeps(s, st);
    forall t ensures Handshake(Do(s, st), t) { HandshakeKeeps(s, st, t); }
  }

  lemma PendingKeepsOwn(s: State, st: Step, t: Tid)
    requires Inv(s) && Enabled(s, st) && By(st, t)
    ensures Pending(Do(s, st), t)
  {
    assert Pending(s, t) && Placed(s, t) && Handshake(s, t);
    PendingStep(s, st, t);
  }

  lemma PendingStep(s: State, st: Step, t: Tid)
    requires Enabled(s, st) && By(st, t) && Pending(s, t) && Placed(s, t) && Handshake(s, t)
    requires (s.mode == TokenOpen && s.rsem > 0 ==> Fresh(s)) && forall w | w in s.writes :: w < s.next
    ensures Pending(Do(s, st), t)
  {}

  lemma PendingKeeps(s: State, st: Step, t: Tid)
    requires Inv(s) && Enabled(s, st)
    ensures Pending(Do(s, st), t)
  {
    if By(st, t) {
      PendingKeepsOwn(s, st, t);
    } else {
      assert Pending(s, t) && Placed(s, t);
      OthersUntouched(s, st, t);
      if t in s.calls && Inside(s.calls[t]) { LeftAlone(s, st, t); }
    }
  }

  /** A reply enters the list of delivered ones only while it is fresh. */
  lemma DeliveredKeeps(s: State, st: Step)
    requires Inv(s) && Enabled(s, st)
    ensures var s' := Do(s, st);
            && (forall w | w in s'.writes :: w < s'.next)
            && (forall d | d in s'.delivered :: d in s'.writes)
            && (forall i, j | 0 <= i < j < |s'.delivered| :: s'.delivered[i] != s'.delivered[j])
  {
    if st.CopyToUser? { assert Pending(s, st.t); }
    if st.Up? { assert Handshake(s, st.t); }
  }

  /** While the read semaphore is up, the reply it announces stays in the buffer. */
  lemma FreshKeeps(s: State, st: Step)
    requires Inv(s) && Enabled(s, st)
    ensures Do(s, st).mode == TokenOpen && Do(s, st).rsem > 0 ==> Fresh(Do(s, st))
  {
    var s' := Do(s, st);
    if s'.mode == TokenOpen && s'.rsem > 0 {
      if st.Up? && s.calls[st.t].op == WriteOp {
        assert Pending(s, st.t);
        assert s'.writes[|s'.writes| - 1] == s.calls[st.t].req;
      } else if !(st.Enter? || st.Down? || st.NiosScratch? || st.NiosDone? || st.Release?) {
        assert Placed(s, st.t);
      }
    }
  }

  lemma StepKeeps(s: State, st: Step)
    requires Inv(s) && Enabled(s, st)
    ensures Inv(Do(s, st))
  {
    CallersKeep(s, st);
    AnsweredKeeps(s, st);
    DeliveredKeeps(s, st);
    FreshKeeps(s, st);
    forall t ensures Pending(Do(s, st), t) { PendingKeeps(s, st, t); }
  }

  lemma {:induction false} RunKeeps(s: State, steps: seq<Step>, s': State)
    requires Inv(s) && Runs(s, steps, s')
    ensures Inv(s')
    decreases |steps|
  {
    if steps != [] {
      StepKeeps(s, steps[0]);
      RunKeeps(Do(s, steps[0]), steps[1..], s');
    }
  }

  // ---------- main results ----------

  ghost function InsideCalls(s: State): set<Tid> { set t | t in s.calls && Inside(s.calls[t]) }

  /** In every run, with any number of callers and any error exits, the two
      semaphores and the calls past them hold at most one token, so the shared
      buffer has one user at a time. */
  lemma BufferHasOneUser(steps: seq<Step>, s: State)
    requires Runs(Init, steps, s)
    ensures |InsideCalls(s)| <= 1
    ensures s.mode == TokenOpen ==> s.rsem + s.wsem + |InsideCalls(s)| <= 1
  {
    RunKeeps(Init, steps, s);
    var inside := InsideCalls(s);
    if t :| t in inside { assert inside == {t}; }
  }

  /** In every run, only the flag's owner writes the shared RAM, and a result is
      taken by the call that posted the request it answers, even after earlier
      calls timed out and the Nios finished late. */
  lemma ResultIsOwn(steps: seq<Step>, s: State, st: Step)
    requires Runs(Init, steps, s) && Enabled(s, st)
    ensures Do(s, st).posted != s.posted ==> s.flag == ArmOwns
    ensures Do(s, st).result != s.result ==> s.flag == NiosOwns
    ensures st.RaiseFlag? || st.TakeResult? ==> s.flag == ArmOwns
    ensures st.TakeResult? ==> s.result == s.posted == s.calls[st.t].req
  {
    RunKeeps(Init, steps, s);
    hide Runs, Callers, Answered, Replies, Enabled;
    OwnResult(s, st);
  }

  lemma OwnResult(s: State, st: Step)
    requires Answered(s) && Enabled(s, st)
    ensures Do(s, st).posted != s.posted ==> s.flag == ArmOwns
    ensures Do(s, st).result != s.result ==> s.flag == NiosOwns
    ensures st.RaiseFlag? || st.TakeResult? ==> s.flag == ArmOwns
    ensures st.TakeResult? ==> s.result == s.posted == s.calls[st.t].req
  {
    if st.PostRequest? || st.RaiseFlag? || st.TakeResult? { assert Handshake(s, st.t); }
  }

  /** In every run, a successful read delivers the reply to the latest successful
      write, and no reply is delivered twice. */
  lemma ReadGetsLatestReply(steps: seq<Step>, s: State, st: Step)
    requires Runs(Init, steps, s) && Enabled(s, st) && st.CopyToUser? && s.calls[st.t].op == ReadOp
    ensures s.writes != []
    ensures var last := s.writes[|s.writes| - 1];
            last !in s.delivered && Do(s, st).delivered == s.delivered + [last]
  {
    RunKeeps(Init, steps, s);
    assert Pending(s, st.t);
  }

  /** An error exit that takes the token with it: nobody holds it and no
      semaphore is up. */
  ghost predicate TokenLost(s: State) {
    s.mode == TokenOpen && s.rsem == 0 && s.wsem == 0 && forall t | t in s.calls :: !Inside(s.calls[t])
  }

  /** Every failure past the semaphore loses the token. */
  lemma FailureLosesToken(steps: seq<Step>, s: State, t: Tid)
    requires Runs(Init, steps, s) && s.mode == TokenOpen && t in s.calls && Inside(s.calls[t])
    requires Enabled(s, Fail(t)) || (s.calls[t].pc == Check && s.flag == NiosOwns)
    ensures TokenLost(Do(s, if Enabled(s, Fail(t)) then Fail(t) else CheckFlag(t)))
  {
    RunKeeps(Init, steps, s);
    hide Runs, Answered, Replies;
    assert Placed(s, t);
  }

  /** Once the token is lost, nothing is written or delivered until the device is
      released, whatever the callers do. */
  lemma {:induction false} LostTokenStaysLost(s: State, steps: seq<Step>, s': State)
    requires Inv(s) && TokenLost(s) && Runs(s, steps, s') && Release !in steps
    ensures TokenLost(s') && s'.writes == s.writes && s'.delivered == s.delivered && s'.posted == s.posted
    decreases |steps|
  {
    if steps != [] {
      StepKeeps(s, steps[0]);
      LostTokenStep(s, steps[0]);
      LostTokenStaysLost(Do(s, steps[0]), steps[1..], s');
    }
  }

  lemma LostTokenStep(s: State, st: Step)
    requires Inv(s) && TokenLost(s) && Enabled(s, st) && st != Release
    ensures var s' := Do(s, st);
            TokenLost(s') && s'.writes == s.writes && s'.delivered == s.delivered && s'.posted == s.posted
  {
    if st.Fail? { assert Placed(s, st.t); }
  }

  /** A call past its semaphore leaves with an error. */
  predicate ErrorExit(s: State, st: Step)
    requires Enabled(s, st)
  {
    (st.Fail? && Inside(s.calls[st.t])) || (st.CheckFlag? && s.flag == NiosOwns)
  }

  ghost predicate NoErrorExit(s: State, steps: seq<Step>)
    decreases |steps|
  {
    steps != [] && Enabled(s, steps[0]) ==> !ErrorExit(s, steps[0]) && NoErrorExit(Do(s, steps[0]), steps[1..])
  }

  ghost function Tokens(s: State): nat { s.rsem + s.wsem + |InsideCalls(s)| }

  lemma TokensMeans(s: State)
    requires Inv(s) && s.mode == TokenOpen
    ensures Tokens(s) == (if TokenLost(s) then 0 else 1)
  {
    hide Answered, Replies;
    var inside := InsideCalls(s);
    if TokenLost(s) || s.rsem + s.wsem > 0 {
      assert inside == {};
    } else {
      var t :| t in s.calls && Inside(s.calls[t]);
      assert t in inside && forall u | u in inside :: u == t;
      assert inside == {t};
    }
  }

  /** Who has the token: a semaphore or a call inside. */
  lemma HolderKeeps(s: State, st: Step, t: Tid)
    requires Inv(s) && s.mode == TokenOpen && t in s.calls && Inside(s.calls[t])
    requires Enabled(s, st) && st != Release && !ErrorExit(s, st)
    ensures !TokenLost(Do(s, st))
  {
    hide Answered, Replies;
    if By(st, t) {
      assert Placed(s, t);
      assert t in Do(s, st).calls;
    } else {
      OthersUntouched(s, st, t);
    }
  }

  lemma SemaphoreKeeps(s: State, st: Step)
    requires Inv(s) && s.mode == TokenOpen && s.rsem + s.wsem > 0
    requires Enabled(s, st) && st != Release
    ensures !TokenLost(Do(s, st))
  {
    hide Answered, Replies;
    if st.Down? { assert Inside(Do(s, st).calls[st.t]); }
  }

  /** Only an error exit past the semaphore loses the token. */
  lemma TokenStepIff(s: State, st: Step)
    requires Inv(s) && s.mode == TokenOpen && !TokenLost(s) && Enabled(s, st) && st != Release
    ensures TokenLost(Do(s, st)) <==> ErrorExit(s, st)
    ensures Do(s, st).mode == TokenOpen
  {
    hide Replies, Answered;
    OpenStays(s, st);
    if ErrorExit(s, st) {
      assert Placed(s, st.t);
    } else if s.rsem + s.wsem > 0 {
      SemaphoreKeeps(s, st);
    } else {
      var t :| t in s.calls && Inside(s.calls[t]);
      HolderKeeps(s, st, t);
    }
  }

  lemma OpenStays(s: State, st: Step)
    requires Callers(s) && s.mode == TokenOpen && Enabled(s, st) && st != Release
    ensures Do(s, st).mode == TokenOpen
  {
    if st.CheckFlag? || st.TakeResult? || st.Fail? { assert Placed(s, st.t); }
  }

  lemma {:induction false} TokenRunIff(s: State, steps: seq<Step>, s': State)
    requires Inv(s) && s.mode == TokenOpen && !TokenLost(s) && Runs(s, steps, s') && Release !in steps
    ensures s'.mode == TokenOpen && Inv(s')
    ensures TokenLost(s') <==> !NoErrorExit(s, steps)
    decreases |steps|
  {
    hide Inv, Do, Enabled, TokenLost, ErrorExit;
    if steps != [] {
      var next := Do(s, steps[0]);
      StepKeeps(s, steps[0]);
      TokenStepIff(s, steps[0]);
      if TokenLost(next) {
        LostTokenStaysLost(next, steps[1..], s');
        RunKeeps(next, steps[1..], s');
        LostIsOpen(s');
      } else {
        TokenRunIff(next, steps[1..], s');
      }
    }
  }

  lemma LostIsOpen(s: State)
    requires TokenLost(s)
    ensures s.mode == TokenOpen
  {}

  /** From every opening of a token device to its release, the semaphores and the
      calls inside hold exactly one token if and only if no call has left with an
      error past its semaphore. */
  lemma TokenKeptIffNoErrorExit(before: seq<Step>, s0: State, steps: seq<Step>, s: State)
    requires Runs(Init, before, s0) && Enabled(s0, OpenToken) && Runs(Do(s0, OpenToken), steps, s) && Release !in steps
    ensures Tokens(s) == 1 <==> NoErrorExit(Do(s0, OpenToken), steps)
  {
    RunKeeps(Init, before, s0);
    StepKeeps(s0, OpenToken);
    var s1 := Do(s0, OpenToken);
    assert s1.mode == TokenOpen && s1.wsem == 1 && !TokenLost(s1);
    hide Inv, Do, Enabled;
    TokenRunIff(s1, steps, s);
    TokensMeans(s);
  }

  /** A write that fails while copying in loses it. */
  lemma TokenLossIsReachable() returns (steps: seq<Step>, s: State)
    ensures Runs(Init, steps, s) && TokenLost(s)
  {
    var s1 := Do(Init, OpenToken);
    var s2 := Do(s1, Enter(0, WriteOp, 1, 0));
    var s3 := Do(s2, Down(0));
    WriteFails(s2);
    s := Do(s3, Fail(0));
    steps := [OpenToken, Enter(0, WriteOp, 1, 0)] + [Down(0), Fail(0)];
    hide Do, Enabled, TokenLost;
    RunsTwo(s2, Down(0), Fail(0), [], s);
    RunsTwo(Init, OpenToken, Enter(0, WriteOp, 1, 0), [Down(0), Fail(0)], s);
    assert [Down(0), Fail(0)] + [] == [Down(0), Fail(0)];
  }

  lemma WriteFails(s: State)
    requires At(s, 0, Start) && s.calls.Keys == {0} && s.calls[0].op == WriteOp
    requires s.mode == TokenOpen && s.rsem == 0 && s.wsem == 1
    ensures Enabled(s, Down(0)) && Enabled(Do(s, Down(0)), Fail(0)) && TokenLost(Do(Do(s, Down(0)), Fail(0)))
  {}

  lemma RunsTwo(s: State, a: Step, b: Step, steps: seq<Step>, s': State)
    requires Enabled(s, a) && Enabled(Do(s, a), b) && Runs(Do(Do(s, a), b), steps, s')
    ensures Runs(s, [a, b] + steps, s')
  {
    RunsCons(Do(s, a), b, steps, s');
    RunsCons(s, a, [b] + steps, s');
    assert [a] + ([b] + steps) == [a, b] + steps;
  }

  lemma RunsCons(s: State, st: Step, steps: seq<Step>, s': State)
    requires Enabled(s, st) && Runs(Do(s, st), steps, s')
    ensures Runs(s, [st] + steps, s')
  {
    assert ([st] + steps)[1..] == steps;
  }
}
