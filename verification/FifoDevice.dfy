/**
  The FIFO character device: readers and writers share a 256-word hardware FIFO
  under a semaphore that is dropped around sleeping.  Any number of threads take
  the atomic steps below in any order.
 */
module FifoDevice {
  import opened Counts

  type Word = int
  type Tid = nat

  const DEPTH: nat := 256

  datatype Option<T> = None | Some(value: T)
  datatype Side = Reader | Writer

  datatype Pc =
    | Start                 // about to take the semaphore
    | Check                 // holds it, about to look at the level
    | Prepare               // released it, about to join the wait queue
    | Test                  // on the queue, about to test the condition
    | Sleep                 // on the queue, the condition was false
    | Relock                // about to take the semaphore again
    | Move                  // holds it, moving words
    | Unlock                // holds it, done moving
    | Wake                  // released it, about to wake the queue
    | Done                  // returned 4 * |io|
    | Gone                  // returned an error

  /** One call.  asked is the byte count, left what the loop has not counted
      down yet (32 bits wide), level the loop's copy of the fill level, io the
      words moved, avail the words or spaces there were when moving began, at
      the position in the stream where it began. */
  datatype Call = Call(side: Side, pc: Pc, asked: nat, left: nat, level: nat,
                       io: seq<Word>, avail: nat, at: nat, woken: bool)

  /** written and popped are the words ever pushed into and taken out of the FIFO. */
  datatype State = State(fifo: seq<Word>, lock: Option<Tid>, calls: map<Tid, Call>,
                         written: seq<Word>, popped: seq<Word>)

  const Init := State([], None, map[], [], [])

  datatype Step =
    | Enter(t: Tid, side: Side, bytes: nat)
    | Down(t: Tid)
    | Look(t: Tid)
    | Join(t: Tid)
    | Try(t: Tid)
    | Resume(t: Tid)
    | DownAgain(t: Tid)
    | MoveWord(t: Tid, w: Word)
    | Fault(t: Tid)
    | Up(t: Tid)
    | WakeAll(t: Tid)
    | Interrupt(t: Tid)

  /** The condition a caller of this side waits for. */
  predicate Ready(side: Side, level: nat) {
    match side case Writer => level < DEPTH case Reader => level != 0
  }

  predicate Holds(pc: Pc) { pc == Check || pc == Move || pc == Unlock }
  predicate Interruptible(pc: Pc) { pc == Start || pc == Test || pc == Sleep || pc == Relock }
  predicate Queued(pc: Pc) { pc == Test || pc == Sleep }

  predicate At(s: State, t: Tid, pc: Pc) { t in s.calls && s.calls[t].pc == pc }

  predicate Enabled(s: State, st: Step) {
    match st
    case Enter(t, _, bytes) => bytes < 0x1_0000_0000 && (t in s.calls ==> s.calls[t].pc in {Done, Gone})
    case Down(t) => At(s, t, Start) && s.lock == None
    case Look(t) => At(s, t, Check)
    case Join(t) => At(s, t, Prepare)
    case Try(t) => At(s, t, Test)
    case Resume(t) => At(s, t, Sleep) && s.calls[t].woken
    case DownAgain(t) => At(s, t, Relock) && s.lock == None
    case MoveWord(t, w) => At(s, t, Move) && (s.calls[t].side == Reader ==> s.fifo != [] && w == s.fifo[0])
    case Fault(t) => At(s, t, Move) && (s.calls[t].side == Reader ==> s.fifo != [])
    case Up(t) => At(s, t, Unlock)
    case WakeAll(t) => At(s, t, Wake)
    case Interrupt(t) => t in s.calls && Interruptible(s.calls[t].pc)
  }

  function Goto(s: State, t: Tid, pc: Pc): State
    requires t in s.calls
  {
    s.(calls := s.calls[t := s.calls[t].(pc := pc)])
  }

  /** One round of the transfer loop, up to its break or its loop test. */
  function AfterWord(c: Call, w: Word): Call {
    var level := if c.side == Writer then c.level + 1 else c.level - 1;
    var left := if c.left >= 4 then c.left - 4 else c.left + 0x1_0000_0000 - 4;
    var more := if c.side == Writer then level < DEPTH else level > 0;
    c.(level := if level >= 0 then level else 0, left := left, io := c.io + [w],
       pc := if left == 0 || !more then Unlock else Move)
  }

  function Do(s: State, st: Step): State
    requires Enabled(s, st)
  {
    match st
    case Enter(t, side, bytes) =>
      s.(calls := s.calls[t := Call(side, Start, bytes, bytes, 0, [], 0, 0, false)])
    case Down(t) =>
      if s.calls[t].asked % 4 != 0 then Goto(s, t, Gone) else Goto(s, t, Check).(lock := Some(t))
    case Look(t) =>
      var c, level := s.calls[t], |s.fifo|;
      if !Ready(c.side, level) then Goto(s, t, Prepare).(lock := None)
      else
        var avail := if c.side == Writer then DEPTH - level else level;
        var at := if c.side == Writer then |s.written| else |s.popped|;
        s.(calls := s.calls[t := c.(pc := Move, level := level, avail := avail, at := at)])
    case Join(t) => s.(calls := s.calls[t := s.calls[t].(pc := Test, woken := false)])
    case Try(t) => Goto(s, t, if Ready(s.calls[t].side, |s.fifo|) then Relock else Sleep)
    case Resume(t) => Goto(s, t, Prepare)
    case DownAgain(t) => Goto(s, t, Check).(lock := Some(t))
    case MoveWord(t, w) =>
      var s' := s.(calls := s.calls[t := AfterWord(s.calls[t], w)]);
      if s.calls[t].side == Writer then s'.(fifo := s.fifo + [w], written := s.written + [w])
      else s'.(fifo := s.fifo[1..], popped := s.popped + [w])
    case Fault(t) =>
      var s' := Goto(s, t, Gone).(lock := None);
      if s.calls[t].side == Writer then s' else s'.(fifo := s.fifo[1..], popped := s.popped + [s.fifo[0]])
    case Up(t) => Goto(s, t, Wake).(lock := None)
    case WakeAll(t) =>
      s.(calls := map u | u in s.calls ::
           if u == t then s.calls[u].(pc := Done)
           else if Queued(s.calls[u].pc) then s.calls[u].(woken := true) else s.calls[u])
    case Interrupt(t) => Goto(s, t, Gone)
  }

  ghost predicate Runs(s: State, steps: seq<Step>, s': State)
    decreases |steps|
  {
    if steps == [] then s == s' else Enabled(s, steps[0]) && Runs(Do(s, steps[0]), steps[1..], s')
  }

  // ---------- what every step keeps ----------

  /** The FIFO holds exactly the words written and not yet popped. */
  predicate Stream(s: State) {
    s.written == s.popped + s.fifo && |s.fifo| <= DEPTH
  }

  /** The semaphore is held exactly by the call that is between its down and up. */
  ghost predicate Exclusive(s: State) {
    && (s.lock.Some? ==> s.lock.value in s.calls && Holds(s.calls[s.lock.value].pc))
    && (forall t | t in s.calls && Holds(s.calls[t].pc) :: s.lock == Some(t))
  }

  /** Words a byte count stands for: a count of 0 wraps around on its first
      decrement. */
  function Wanted(bytes: nat): nat {
    if bytes == 0 then 0x4000_0000 else bytes / 4
  }

  /** How far a call has got, given the stream it works on and the fill level. */
  predicate Progress(c: Call, written: seq<Word>, popped: seq<Word>, level: nat) {
    && c.asked < 0x1_0000_0000
    && (c.pc != Start && c.pc != Gone ==> c.asked % 4 == 0)
    && (c.pc !in {Move, Unlock, Wake, Done, Gone} ==> c.io == [] && c.left == c.asked)
    && (c.pc in {Move, Unlock, Wake, Done} ==>
          && 0 < c.avail <= DEPTH
          && var stream := if c.side == Writer then written else popped;
             c.at + |c.io| <= |stream| && c.io == stream[c.at..c.at + |c.io|])
    && (c.pc in {Move, Unlock} ==>
          && c.at + |c.io| == (if c.side == Writer then |written| else |popped|)
          && c.level == level
          && c.avail == |c.io| + (if c.side == Writer then DEPTH - c.level else c.level))
    && (c.pc == Move ==>
          |c.io| < Min(Wanted(c.asked), c.avail)
          && c.left == if c.asked == 0 && |c.io| > 0 then 0x1_0000_0000 - 4 * |c.io| else c.asked - 4 * |c.io|)
    && (c.pc in {Unlock, Wake, Done} ==> |c.io| == Min(Wanted(c.asked), c.avail))
  }

  predicate InOrder(s: State, t: Tid) {
    t in s.calls && Progress(s.calls[t], s.written, s.popped, |s.fifo|)
  }

  ghost predicate AllProgress(s: State) {
    forall t | t in s.calls :: InOrder(s, t)
  }

  /** The call has moved words and has yet to wake the queue. */
  predicate OwesWake(c: Call) {
    c.io != [] && c.pc in {Move, Unlock, Wake}
  }

  predicate Asleep(c: Call) { c.pc == Sleep && !c.woken }

  predicate Owed(s: State, u: Tid, side: Side) {
    u in s.calls && s.calls[u].side != side && OwesWake(s.calls[u])
  }

  /** No lost wake-up: whoever sleeps unwoken has a reason, or a call of the other
      side that moved words still owes the wake-up. */
  ghost predicate NoLostWakeup(s: State) {
    forall t | t in s.calls && Asleep(s.calls[t]) ::
      !Ready(s.calls[t].side, |s.fifo|) || exists u :: Owed(s, u, s.calls[t].side)
  }

  ghost predicate Inv(s: State) {
    Stream(s) && Exclusive(s) && AllProgress(s)
  }

  lemma StreamKeeps(s: State, st: Step)
    requires Inv(s) && Enabled(s, st)
    ensures Stream(Do(s, st))
  {
    hide Progress, Exclusive, AfterWord;
    if st.MoveWord? {
      assert InOrder(s, st.t);
      if s.calls[st.t].side == Reader {
        FirstOut(s.popped, s.fifo);
      } else {
        RoomToMove(s.calls[st.t], s.written, s.popped, |s.fifo|);
      }
    } else if st.Fault? {
      if s.calls[st.t].side == Reader { FirstOut(s.popped, s.fifo); }
    }
  }

  /** A writer that is moving has room for a word. */
  lemma RoomToMove(c: Call, written: seq<Word>, popped: seq<Word>, level: nat)
    requires Progress(c, written, popped, level) && c.pc == Move && c.side == Writer
    ensures level < DEPTH
  {}

  lemma FirstOut(popped: seq<Word>, fifo: seq<Word>)
    requires fifo != []
    ensures popped + [fifo[0]] + fifo[1..] == popped + fifo
  {}

  lemma ExclusiveKeeps(s: State, st: Step)
    requires Exclusive(s) && Enabled(s, st)
    ensures Exclusive(Do(s, st))
  {
    var s' := Do(s, st);
    forall t | t in s'.calls && Holds(s'.calls[t].pc) ensures s'.lock == Some(t) { HolderHasLock(s, st, t); }
    LockIsHeld(s, st);
    hide Do, Enabled;
  }

  lemma HolderHasLock(s: State, st: Step, t: Tid)
    requires Exclusive(s) && Enabled(s, st) && t in Do(s, st).calls && Holds(Do(s, st).calls[t].pc)
    ensures Do(s, st).lock == Some(t)
  {
    hide AfterWord;
    if st.MoveWord? && t == st.t { assert Holds(s.calls[t].pc); }
  }

  lemma LockIsHeld(s: State, st: Step)
    requires Exclusive(s) && Enabled(s, st)
    ensures var s' := Do(s, st); s'.lock.Some? ==> s'.lock.value in s'.calls && Holds(s'.calls[s'.lock.value].pc)
  {}

  lemma MoveKeepsOrder(s: State, t: Tid, w: Word)
    requires Inv(s) && Enabled(s, MoveWord(t, w))
    ensures InOrder(Do(s, MoveWord(t, w)), t)
  {
    assert InOrder(s, t);
    var c := s.calls[t];
    if c.side == Writer {
      WordKeepsOrder(c, w, s.written + [w], s.popped, |s.fifo| + 1, s.written, s.popped, |s.fifo|);
    } else {
      WordKeepsOrder(c, w, s.written, s.popped + [w], |s.fifo| - 1, s.written, s.popped, |s.fifo|);
    }
  }

  lemma WordKeepsOrder(c: Call, w: Word, written': seq<Word>, popped': seq<Word>, level': nat,
                       written: seq<Word>, popped: seq<Word>, level: nat)
    requires Progress(c, written, popped, level) && c.pc == Move
    requires if c.side == Writer then written' == written + [w] && level' == level + 1
             else popped' == popped + [w] && level' == level - 1
    ensures Progress(AfterWord(c, w), written', popped', level')
  {
    var stream' := if c.side == Writer then written' else popped';
    assert stream'[c.at..c.at + |c.io| + 1] == c.io + [w];
  }

  lemma LookKeepsOrder(s: State, t: Tid)
    requires Inv(s) && Enabled(s, Look(t))
    ensures InOrder(Do(s, Look(t)), t)
  {
    assert InOrder(s, t);
    assert s.written[|s.written|..|s.written|] == [] && s.popped[|s.popped|..|s.popped|] == [];
  }

  /** Steps other than these change only where the call is. */
  lemma OnlyPc(s: State, st: Step)
    requires Enabled(s, st) && !st.Enter? && !st.MoveWord? && !st.Look? && !st.Fault?
    ensures var s', c := Do(s, st), s.calls[st.t];
            && s'.written == s.written && s'.popped == s.popped && s'.fifo == s.fifo && st.t in s'.calls
            && s'.calls[st.t].(pc := c.pc, woken := c.woken) == c
            && Follows(c, s'.calls[st.t].pc)
  {}

  predicate Follows(c: Call, pc: Pc) {
    match pc
    case Gone => true
    case Check => (c.pc == Start && c.asked % 4 == 0) || c.pc == Relock
    case Test => c.pc == Prepare
    case Sleep => c.pc == Test
    case Relock => c.pc == Test
    case Prepare => c.pc == Sleep
    case Wake => c.pc == Unlock
    case Done => c.pc == Wake
    case _ => false
  }

  /** The call that takes the step. */
  lemma OwnOrder(s: State, st: Step)
    requires Inv(s) && Enabled(s, st)
    ensures InOrder(Do(s, st), st.t)
  {
    hide Progress;
    if st.Enter? {
      FreshOrder(Do(s, st).calls[st.t], s.written, s.popped, |s.fifo|);
    } else if st.MoveWord? {
      MoveKeepsOrder(s, st.t, st.w);
    } else if st.Look? {
      LookKeepsOrder(s, st.t);
    } else {
      assert InOrder(s, st.t);
      if st.Fault? {
        GoneOrder(s.calls[st.t], s.written, s.popped, |s.fifo|, Do(s, st));
      } else {
        OnlyPc(s, st);
        FollowKeepsOrder(s.calls[st.t], Do(s, st).calls[st.t], s.written, s.popped, |s.fifo|);
      }
    }
  }

  lemma FreshOrder(c: Call, written: seq<Word>, popped: seq<Word>, level: nat)
    requires c.pc == Start && c.io == [] && c.left == c.asked < 0x1_0000_0000
    ensures Progress(c, written, popped, level)
  {}

  lemma GoneOrder(c: Call, written: seq<Word>, popped: seq<Word>, level: nat, s': State)
    requires Progress(c, written, popped, level)
    ensures Progress(c.(pc := Gone), s'.written, s'.popped, |s'.fifo|)
  {}

  lemma FollowKeepsOrder(c: Call, c': Call, written: seq<Word>, popped: seq<Word>, level: nat)
    requires Progress(c, written, popped, level)
    requires c'.(pc := c.pc, woken := c.woken) == c && Follows(c, c'.pc)
    ensures Progress(c', written, popped, level)
  {}

  lemma OthersUntouched(s: State, st: Step, u: Tid)
    requires Exclusive(s) && Enabled(s, st) && u in s.calls && u != st.t
    ensures var s' := Do(s, st);
            && u in s'.calls && s'.calls[u].(woken := s.calls[u].woken) == s.calls[u]
            && s.written <= s'.written && s.popped <= s'.popped
            && (s.calls[u].pc in {Move, Unlock} ==>
                  s'.written == s.written && s'.popped == s.popped && s'.fifo == s.fifo)
  {}

  /** Any other call: its words stay where they are in streams that only grow. */
  lemma OtherOrder(s: State, st: Step, u: Tid)
    requires Inv(s) && Enabled(s, st) && u in s.calls && u != st.t
    ensures InOrder(Do(s, st), u)
  {
    assert InOrder(s, u);
    OthersUntouched(s, st, u);
    hide Do, Enabled, Exclusive, Stream, AllProgress, Progress;
    GrowingKeepsOrder(s.calls[u], Do(s, st).calls[u], s, Do(s, st));
  }

  lemma GrowingKeepsOrder(c: Call, c': Call, s: State, s': State)
    requires Progress(c, s.written, s.popped, |s.fifo|) && c'.(woken := c.woken) == c
    requires s.written <= s'.written && s.popped <= s'.popped
    requires c.pc in {Move, Unlock} ==> s'.written == s.written && s'.popped == s.popped && s'.fifo == s.fifo
    ensures Progress(c', s'.written, s'.popped, |s'.fifo|)
  {}

  lemma StepKeeps(s: State, st: Step)
    requires Inv(s) && Enabled(s, st)
    ensures Inv(Do(s, st))
  {
    StreamKeeps(s, st);
    ExclusiveKeeps(s, st);
    hide Stream, Exclusive, InOrder;
    forall u | u in Do(s, st).calls ensures InOrder(Do(s, st), u) {
      if u == st.t { OwnOrder(s, st); } else { OtherOrder(s, st, u); }
    }
  }

  /** Without a fault, every step keeps wake-ups from being lost. */
  lemma WakeupKeeps(s: State, st: Step)
    requires Inv(s) && NoLostWakeup(s) && Enabled(s, st) && !st.Fault?
    ensures NoLostWakeup(Do(s, st))
  {
    var s' := Do(s, st);
    forall t | t in s'.calls && Asleep(s'.calls[t])
      ensures !Ready(s'.calls[t].side, |s'.fifo|) || exists u :: Owed(s', u, s'.calls[t].side)
    {
      SleeperKeeps(s, st, t);
    }
  }

  lemma OwedStays(s: State, st: Step, u: Tid, side: Side)
    requires Owed(s, u, side) && Enabled(s, st) && !st.Fault? && !st.WakeAll?
    ensures Owed(Do(s, st), u, side)
  {}

  /** The fill level changes only with the word that a call moves. */
  lemma SleeperBecomesReady(s: State, st: Step, side: Side)
    requires Inv(s) && Enabled(s, st) && !st.Fault?
    requires !Ready(side, |s.fifo|) && Ready(side, |Do(s, st).fifo|)
    ensures !st.WakeAll? && Owed(Do(s, st), st.t, side)
  {
    if st.MoveWord? { assert InOrder(s, st.t); }
  }

  lemma SleeperKeeps(s: State, st: Step, t: Tid)
    requires Inv(s) && NoLostWakeup(s) && Enabled(s, st) && !st.Fault?
    requires t in Do(s, st).calls && Asleep(Do(s, st).calls[t])
    ensures var s' := Do(s, st);
            !Ready(s'.calls[t].side, |s'.fifo|) || exists u :: Owed(s', u, s'.calls[t].side)
  {
    if st.t != t {
      var side := s.calls[t].side;
      assert Asleep(s.calls[t]) && Do(s, st).calls[t].side == side && !st.WakeAll?;
      if !Ready(side, |s.fifo|) {
        if Ready(side, |Do(s, st).fifo|) { SleeperBecomesReady(s, st, side); }
      } else {
        var u :| Owed(s, u, side);
        OwedStays(s, st, u, side);
      }
    }
  }

  // ---------- faults ----------

  /** A reader's fault still takes a word out. */
  function LevelAfterFault(s: State, t: Tid): nat
    requires Enabled(s, Fault(t))
  {
    if s.calls[t].side == Writer then |s.fifo| else |s.fifo| - 1
  }

  /** The fault of t leaves somebody of the other side asleep although ready, with
      nobody but t to wake them. */
  ghost predicate Strands(s: State, t: Tid)
    requires Enabled(s, Fault(t))
  {
    exists r :: r in s.calls && Asleep(s.calls[r]) && s.calls[r].side != s.calls[t].side
                && Ready(s.calls[r].side, LevelAfterFault(s, t))
                && forall u | Owed(s, u, s.calls[r].side) :: u == t
  }

  /** What a fault changes: the level, and that t no longer owes anything. */
  lemma FaultEffect(s: State, t: Tid, u: Tid, side: Side)
    requires Enabled(s, Fault(t))
    ensures var s' := Do(s, Fault(t));
            && |s'.fifo| == LevelAfterFault(s, t) && (u in s'.calls <==> u in s.calls)
            && (u in s.calls ==> s'.calls[u].side == s.calls[u].side && (Asleep(s'.calls[u]) <==> Asleep(s.calls[u])))
            && (Owed(s', u, side) <==> Owed(s, u, side) && u != t)
  {}

  /** A sleeper r that has a reason, or somebody to wake it. */
  ghost predicate Justified(s: State, r: Tid, level: nat, except: set<Tid>)
    requires r in s.calls
  {
    !Ready(s.calls[r].side, level) || exists u :: Owed(s, u, s.calls[r].side) && u !in except
  }

  lemma JustifiedAfterFault(s: State, t: Tid, r: Tid)
    requires Enabled(s, Fault(t)) && r in s.calls
    ensures r in Do(s, Fault(t)).calls
    ensures Justified(Do(s, Fault(t)), r, |Do(s, Fault(t)).fifo|, {}) <==> Justified(s, r, LevelAfterFault(s, t), {t})
  {
    forall u, side ensures Owed(Do(s, Fault(t)), u, side) <==> Owed(s, u, side) && u != t { FaultEffect(s, t, u, side); }
    FaultEffect(s, t, r, Writer);
    hide Do, Owed, Enabled;
  }

  /** A sleeper on the faulting call's own side keeps its reason, or whoever owes it. */
  lemma OwnSideKeeps(s: State, t: Tid, r: Tid)
    requires NoLostWakeup(s) && Enabled(s, Fault(t))
    requires r in s.calls && Asleep(s.calls[r]) && s.calls[r].side == s.calls[t].side
    ensures Justified(s, r, LevelAfterFault(s, t), {t})
  {
    if Ready(s.calls[r].side, |s.fifo|) { var u :| Owed(s, u, s.calls[r].side); }
  }

  /** A copy fault keeps wake-ups from being lost if and only if it strands nobody. */
  lemma FaultKeepsIff(s: State, t: Tid)
    requires NoLostWakeup(s) && Enabled(s, Fault(t))
    ensures NoLostWakeup(Do(s, Fault(t))) <==> !Strands(s, t)
  {
    var s' := Do(s, Fault(t));
    forall r | r in s.calls
      ensures r in s'.calls && (Asleep(s'.calls[r]) <==> Asleep(s.calls[r]))
      ensures Justified(s', r, |s'.fifo|, {}) <==> Justified(s, r, LevelAfterFault(s, t), {t})
    {
      FaultEffect(s, t, r, Writer);
      JustifiedAfterFault(s, t, r);
      assert Asleep(s'.calls[r]) <==> Asleep(s.calls[r]);
    }
    forall r | r in s'.calls ensures r in s.calls { FaultEffect(s, t, r, Writer); }
    forall r | r in s.calls && Asleep(s.calls[r]) && s.calls[r].side == s.calls[t].side
      ensures Justified(s, r, LevelAfterFault(s, t), {t})
    {
      OwnSideKeeps(s, t, r);
    }
    NotLostMeans(s');
    hide Do, Enabled, Owed, NoLostWakeup;
    StrandsMeans(s, t);
    hide Justified, Strands;
  }

  lemma NotLostMeans(s: State)
    ensures NoLostWakeup(s) <==> forall r | r in s.calls && Asleep(s.calls[r]) :: Justified(s, r, |s.fifo|, {})
  {}

  lemma StrandsMeans(s: State, t: Tid)
    requires Enabled(s, Fault(t))
    ensures Strands(s, t) <==>
            exists r | r in s.calls && Asleep(s.calls[r]) && s.calls[r].side != s.calls[t].side ::
              !Justified(s, r, LevelAfterFault(s, t), {t})
  {}

  /** A writer that faults before its first word strands nobody. */
  lemma EarlyWriterFaultIsHarmless(s: State, t: Tid)
    requires Inv(s) && NoLostWakeup(s) && Enabled(s, Fault(t))
    requires s.calls[t].side == Writer && s.calls[t].io == []
    ensures !Strands(s, t)
  {
    forall r | r in s.calls && Asleep(s.calls[r]) && Ready(s.calls[r].side, |s.fifo|)
      ensures exists u :: Owed(s, u, s.calls[r].side) && u != t
    {
      var u :| Owed(s, u, s.calls[r].side);
    }
  }

  /** A reader's fault strands somebody exactly when a writer sleeps unwoken and no
      other reader has yet to wake it. */
  lemma ReaderFaultStrandsIff(s: State, t: Tid)
    requires Inv(s) && Enabled(s, Fault(t)) && s.calls[t].side == Reader
    ensures Strands(s, t) <==>
            exists r :: r in s.calls && Asleep(s.calls[r]) && s.calls[r].side == Writer
                        && forall u | Owed(s, u, Writer) :: u == t
  {
    assert LevelAfterFault(s, t) < DEPTH;
  }

  /** A writer's fault strands somebody exactly when the writer has put words in, a
      reader sleeps unwoken and no other writer has yet to wake it. */
  lemma WriterFaultStrandsIff(s: State, t: Tid)
    requires Inv(s) && NoLostWakeup(s) && Enabled(s, Fault(t)) && s.calls[t].side == Writer
    ensures Strands(s, t) <==>
            && s.calls[t].io != []
            && exists r :: r in s.calls && Asleep(s.calls[r]) && s.calls[r].side == Reader
                           && forall u | Owed(s, u, Reader) :: u == t
  {
    if s.calls[t].io == [] {
      EarlyWriterFaultIsHarmless(s, t);
    } else {
      assert InOrder(s, t);
      assert Ready(Reader, |s.fifo|);
    }
  }

  /** No fault of the run strands anybody. */
  ghost predicate NoStrand(s: State, steps: seq<Step>)
    decreases |steps|
  {
    steps != [] && Enabled(s, steps[0]) ==>
      (steps[0].Fault? ==> !Strands(s, steps[0].t)) && NoStrand(Do(s, steps[0]), steps[1..])
  }

  /** No state of the run has a lost wake-up. */
  ghost predicate NeverLost(s: State, steps: seq<Step>)
    decreases |steps|
  {
    NoLostWakeup(s) && (steps != [] && Enabled(s, steps[0]) ==> NeverLost(Do(s, steps[0]), steps[1..]))
  }

  /** Over every run of any threads, faults included, the invariant holds. */
  lemma {:induction false} RunKeeps(s: State, steps: seq<Step>, s': State)
    requires Inv(s) && Runs(s, steps, s')
    ensures Inv(s')
    ensures NoStrand(s, steps) && NoLostWakeup(s) ==> NoLostWakeup(s')
    decreases |steps|
  {
    hide Inv, Do, Enabled, NoLostWakeup;
    if steps != [] {
      StepKeeps(s, steps[0]);
      if NoStrand(s, steps) && NoLostWakeup(s) { StepNotLost(s, steps[0]); }
      RunKeeps(Do(s, steps[0]), steps[1..], s');
    }
  }

  lemma StepNotLost(s: State, st: Step)
    requires Inv(s) && NoLostWakeup(s) && Enabled(s, st)
    ensures NoLostWakeup(Do(s, st)) <==> (st.Fault? ==> !Strands(s, st.t))
  {
    hide Inv, Do, Enabled, NoLostWakeup, Strands;
    if st.Fault? {
      assert st == Fault(st.t);
      FaultKeepsIff(s, st.t);
    } else {
      WakeupKeeps(s, st);
    }
  }

  /** A run never loses a wake-up if and only if none of its faults strands anybody. */
  lemma {:induction false} NeverLostIff(s: State, steps: seq<Step>, s': State)
    requires Inv(s) && NoLostWakeup(s) && Runs(s, steps, s')
    ensures NeverLost(s, steps) <==> NoStrand(s, steps)
    decreases |steps|
  {
    hide Inv, Do, Enabled, NoLostWakeup, Strands;
    if steps != [] {
      StepKeeps(s, steps[0]);
      StepNotLost(s, steps[0]);
      if NoLostWakeup(Do(s, steps[0])) { NeverLostIff(Do(s, steps[0]), steps[1..], s'); }
    }
  }

  // ---------- what the device promises over every run ----------

  /** The words popped are a prefix of the words written, the FIFO holds the rest
      and is never overfull; and every call that has returned moved exactly as
      many words as it wanted or as were available, at least one, contiguous in
      the stream.  That is min(count, available) bytes exactly when count is
      not 0. */
  lemma Conservation(steps: seq<Step>, s: State)
    requires Runs(Init, steps, s)
    ensures s.popped <= s.written && s.fifo == s.written[|s.popped|..] && |s.fifo| <= DEPTH
    ensures forall t | At(s, t, Done) ::
              var c := s.calls[t];
              && 0 < |c.io| == Min(Wanted(c.asked), c.avail)
              && (4 * |c.io| == Min(c.asked, 4 * c.avail) <==> c.asked > 0)
              && var stream := if c.side == Writer then s.written else s.popped;
              && c.at + |c.io| <= |stream| && c.io == stream[c.at..c.at + |c.io|]
  {
    RunKeeps(Init, steps, s);
    forall t | At(s, t, Done) ensures InOrder(s, t) {}
  }

  /** In every run whose faults strand nobody (so in every fault-free one), a sleeping
      writer means a full FIFO, and a sleeping reader an empty one, unless the wake-up
      is on its way. */
  lemma NoWakeupIsLost(steps: seq<Step>, s: State)
    requires Runs(Init, steps, s) && NoStrand(Init, steps)
    ensures forall t | At(s, t, Sleep) && !s.calls[t].woken ::
              || |s.fifo| == (if s.calls[t].side == Writer then DEPTH else 0)
              || exists u :: Owed(s, u, s.calls[t].side)
  {
    RunKeeps(Init, steps, s);
  }

  /** The exact condition, from the start: no state of a run has a lost wake-up if and
      only if no fault of it strands anybody. */
  lemma WakeupsKeptIff(steps: seq<Step>, s: State)
    requires Runs(Init, steps, s)
    ensures NeverLost(Init, steps) <==> NoStrand(Init, steps)
  {
    NeverLostIff(Init, steps, s);
  }

  /** Each fault of the run is by a writer that has moved nothing. */
  ghost predicate OnlyEarlyFaults(s: State, steps: seq<Step>)
    decreases |steps|
  {
    steps != [] && Enabled(s, steps[0]) ==>
      && (steps[0].Fault? ==> s.calls[steps[0].t].side == Writer && s.calls[steps[0].t].io == [])
      && OnlyEarlyFaults(Do(s, steps[0]), steps[1..])
  }

  /** Faults by calls that have not changed the FIFO lose no wake-up. */
  lemma {:induction false} EarlyFaultsAreHarmless(s: State, steps: seq<Step>, s': State)
    requires Inv(s) && NoLostWakeup(s) && Runs(s, steps, s') && OnlyEarlyFaults(s, steps)
    ensures NoStrand(s, steps) && NoLostWakeup(s')
    decreases |steps|
  {
    hide Inv, Do, NoLostWakeup, Strands;
    if steps != [] {
      StepKeeps(s, steps[0]);
      if steps[0].Fault? {
        assert steps[0] == Fault(steps[0].t);
        EarlyWriterFaultIsHarmless(s, steps[0].t);
      }
      StepNotLost(s, steps[0]);
      EarlyFaultsAreHarmless(Do(s, steps[0]), steps[1..], s');
    }
  }

  /** A copy fault can lose one: a writer that faults after its first word leaves
      a reader asleep beside a word nobody will announce. */
  lemma FaultLosesWakeup() returns (steps: seq<Step>, s: State)
    ensures Runs(Init, steps, s) && At(s, 0, Sleep) && !s.calls[0].woken
    ensures s.fifo == [7] && !exists u :: Owed(s, u, Reader)
  {
    hide Runs, Enabled, Do;
    var sleep := [Enter(0, Reader, 4), Down(0), Look(0), Join(0), Try(0)];
    var reader := Call(Reader, Sleep, 4, 4, 0, [], 0, 0, false);
    var s1 := State([], None, map[0 := reader], [], []);
    assert Runs(Init, sleep, s1) by { ReaderSleeps(sleep, s1); }
    var begin, move := [Enter(1, Writer, 8), Down(1), Look(1)], [MoveWord(1, 7), Fault(1)];
    var s2 := State([], Some(1), s1.calls[1 := Call(Writer, Move, 8, 8, 0, [], 256, 0, false)], [], []);
    assert Runs(s1, begin, s2) by { WriterBegins(begin, s1, s2); }
    s := State([7], None, s1.calls[1 := Call(Writer, Gone, 8, 4, 1, [7], 256, 0, false)], [7], []);
    assert Runs(s2, move, s) by { WriterFaults(move, s2, s); }
    RunsAppend(Init, sleep, s1, begin, s2);
    RunsAppend(Init, sleep + begin, s2, move, s);
    steps := sleep + begin + move;
  }

  lemma ReaderSleeps(sleep: seq<Step>, s1: State)
    requires sleep == [Enter(0, Reader, 4), Down(0), Look(0), Join(0), Try(0)]
    requires s1 == State([], None, map[0 := Call(Reader, Sleep, 4, 4, 0, [], 0, 0, false)], [], [])
    ensures Runs(Init, sleep, s1)
  {
    var a := Do(Init, sleep[0]);
    var b := Do(a, sleep[1]);
    var c := Do(b, sleep[2]);
    var d := Do(c, sleep[3]);
    assert Runs(Do(d, sleep[4]), sleep[4..][1..], s1);
    assert Runs(d, sleep[4..], s1);
    assert sleep[3..][1..] == sleep[4..] && sleep[2..][1..] == sleep[3..];
    assert Runs(c, sleep[3..], s1) && Runs(b, sleep[2..], s1);
    assert sleep[1..][1..] == sleep[2..];
  }

  lemma WriterBegins(begin: seq<Step>, s1: State, s2: State)
    requires begin == [Enter(1, Writer, 8), Down(1), Look(1)]
    requires s1.fifo == s1.written == s1.popped == [] && s1.lock == None && 1 !in s1.calls
    requires s2 == State([], Some(1), s1.calls[1 := Call(Writer, Move, 8, 8, 0, [], 256, 0, false)], [], [])
    ensures Runs(s1, begin, s2)
  {
    var a := Do(s1, begin[0]);
    var b := Do(a, begin[1]);
    assert Do(b, begin[2]) == s2;
    assert Runs(s2, begin[2..][1..], s2) && Runs(b, begin[2..], s2);
    assert begin[1..][1..] == begin[2..];
  }

  lemma WriterFaults(move: seq<Step>, s2: State, s: State)
    requires move == [MoveWord(1, 7), Fault(1)]
    requires s2.fifo == s2.written == s2.popped == [] && s2.lock == Some(1)
    requires 1 in s2.calls && s2.calls[1] == Call(Writer, Move, 8, 8, 0, [], 256, 0, false)
    requires s == State([7], None, s2.calls[1 := Call(Writer, Gone, 8, 4, 1, [7], 256, 0, false)], [7], [])
    ensures Runs(s2, move, s)
  {
    var d := Do(s2, move[0]);
    assert AfterWord(s2.calls[1], 7) == Call(Writer, Move, 8, 4, 1, [7], 256, 0, false);
    assert d == State([7], Some(1), s2.calls[1 := AfterWord(s2.calls[1], 7)], [7], []);
    assert Do(d, move[1]) == s;
    assert Runs(s, move[1..][1..], s);
  }

  lemma {:induction false} RunsAppend(s: State, a: seq<Step>, m: State, b: seq<Step>, e: State)
    requires Runs(s, a, m) && Runs(m, b, e)
    ensures Runs(s, a + b, e)
    decreases |a|
  {
    if a == [] {
      assert a + b == b;
    } else {
      assert (a + b)[1..] == a[1..] + b;
      RunsAppend(Do(s, a[0]), a[1..], m, b, e);
    }
  }

  // ---------- the loops that run with the semaphore held ----------

  /** A call of the thread machine that is about to move words. */
  function Moving(side: Side, count: nat, level: nat): Call {
    Call(side, Move, count, count, level, [], if side == Writer && level < DEPTH then DEPTH - level else level, 0, false)
  }

  /** What moving some words one after the other makes of it. */
  function AfterWords(c: Call, ws: seq<Word>): Call {
    if ws == [] then c else AfterWord(AfterWords(c, ws[..|ws| - 1]), ws[|ws| - 1])
  }

  /** How many words the loops below move when no copy faults. */
  function LoopMoves(side: Side, count: nat, level: nat): nat
    requires level <= DEPTH
  {
    Min(Wanted(count), if side == Writer then DEPTH - level else level)
  }

  /** c has moved ws, of n words it will move. */
  predicate HasMoved(c: Call, side: Side, wanted: nat, level: nat, n: nat, ws: seq<Word>) {
    && c.io == ws && c.side == side && c.pc == (if |ws| == n then Unlock else Move)
    && c.level == (if side == Writer then level + |ws| else level - |ws|)
    && (|ws| > 0 || c.left > 0 ==> c.left == 4 * wanted - 4 * |ws|)
  }

  lemma HasMovedNext(c: Call, side: Side, wanted: nat, level: nat, n: nat, ws: seq<Word>, w: Word)
    requires HasMoved(c, side, wanted, level, n, ws) && |ws| < n <= wanted <= 0x4000_0000 && level <= DEPTH
    requires n == Min(wanted, if side == Writer then DEPTH - level else level)
    requires c.left == 0 ==> ws == [] && wanted == 0x4000_0000
    ensures HasMoved(AfterWord(c, w), side, wanted, level, n, ws + [w])
  {}

  /** The thread machine moves as many words as the loops: it goes on while there are
      fewer, and is ready to unlock exactly at that number. */
  lemma {:induction false} MachineMovesTheSame(side: Side, count: nat, level: nat, ws: seq<Word>)
    requires count % 4 == 0 && count < 0x1_0000_0000 && level <= DEPTH && Ready(side, level)
    requires |ws| <= LoopMoves(side, count, level)
    ensures HasMoved(AfterWords(Moving(side, count, level), ws), side, Wanted(count), level, LoopMoves(side, count, level), ws)
  {
    hide AfterWord;
    if ws != [] {
      var k := |ws| - 1;
      MachineMovesTheSame(side, count, level, ws[..k]);
      var c := AfterWords(Moving(side, count, level), ws[..k]);
      HasMovedNext(c, side, Wanted(count), level, LoopMoves(side, count, level), ws[..k], ws[k]);
      assert ws[..k] + [ws[k]] == ws;
    }
  }

  class Fifo {
    var words: seq<Word>

    ghost predicate Valid()
      reads this
    {
      |words| <= DEPTH
    }

    constructor ()
      ensures Valid() && words == []
    {
      words := [];
    }

    /** The transfer loop of demo_fifo_write.  user is the memory the caller can be
        read from; past its end the copy faults.  A count of 0 wraps around. */
    method WriteWords(user: seq<Word>, count0: nat) returns (bytes: nat, fault: bool)
      requires Valid() && |words| < DEPTH && count0 % 4 == 0 && count0 < 0x1_0000_0000
      modifies this
      ensures Valid()
      ensures var n := LoopMoves(Writer, count0, |old(words)|);
              && (fault <==> |user| < n)
              && (!fault ==> bytes == 4 * n > 0)
              && words == old(words) + (if fault then user else user[..n])
    {
      var level, count: int, i := |words|, count0, 0;
      bytes, fault := 0, false;
      while level < DEPTH
        invariant bytes == 4 * i < 4 * Wanted(count0) && i <= |user| && level == |words| <= DEPTH
        invariant count == if i == 0 then count0 else 4 * Wanted(count0) - 4 * i
        invariant words == old(words) + user[..i]
        decreases DEPTH - level
      {
        if i == |user| {
          assert user[..i] == user;
          return bytes, true;
        }
        assert user[..i + 1] == user[..i] + [user[i]];
        words := words + [user[i]];
        level, bytes, count, i := level + 1, bytes + 4, (count - 4) % 0x1_0000_0000, i + 1;
        if count == 0 { break; }
      }
    }

    /** The transfer loop of demo_fifo_read.  space is how many words the caller's
        memory can take; a word popped for a copy that faults is lost. */
    method ReadWords(space: nat, count0: nat) returns (bytes: nat, user: seq<Word>, fault: bool)
      requires Valid() && words != [] && count0 % 4 == 0 && count0 < 0x1_0000_0000
      modifies this
      ensures Valid()
      ensures var n := LoopMoves(Reader, count0, |old(words)|);
              && (fault <==> space < n)
              && (!fault ==> bytes == 4 * |user| == 4 * n > 0 && user + words == old(words))
              && (fault ==> |user| == space && user + [old(words)[space]] + words == old(words))
    {
      var level, count: int, i := |words|, count0, 0;
      bytes, user, fault := 0, [], false;
      while level > 0
        invariant bytes == 4 * |user| && |user| == i < Wanted(count0) && i <= space && level == |words|
        invariant count == if i == 0 then count0 else 4 * Wanted(count0) - 4 * i
        invariant user + words == old(words)
        decreases level
      {
        var word := words[0];
        words := words[1..];
        if i == space { return bytes, user, true; }
        user, level, bytes, count, i := user + [word], level - 1, bytes + 4, (count - 4) % 0x1_0000_0000, i + 1;
        if count == 0 { break; }
      }
    }

    /** The drain in platform_probe: the FIFO is empty afterwards. */
    method Drain() returns (level: nat)
      requires Valid()
      modifies this
      ensures Valid() && words == [] && level == 0
    {
      level := |words|;
      while level > 0
        invariant level == |words|
      {
        words, level := words[1..], level - 1;
      }
      level := |words|;
    }
  }
}
