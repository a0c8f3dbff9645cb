/**
  What goes through the validator's buffer: the message of a write reaches the Nios
  unchanged, and every caller is given the replies to exactly its own requests.
 */
module ValidatorReplies {
  import opened Validator

  // ---------- the invariant ----------

  /** Requests a call has posted: one for each handshake done, and one under way. */
  predicate Counted(c: Call) {
    && c.total > 0
    && (c.pc in {Start, CopyIn, Check} ==> c.reqs == [] && c.rounds == c.total)
    && (c.pc in {CopyIn, Check, Post, Raise, Wait, Fetch} ==> 0 < c.rounds <= c.total || c.op == ReadOp)
    && (c.pc == Post ==> |c.reqs| == c.total - c.rounds)
    && (c.pc in {Raise, Wait, Fetch} && c.op != ReadOp ==>
          |c.reqs| == c.total - c.rounds + 1 && c.req == c.reqs[|c.reqs| - 1])
    && (c.op == PlainOp && c.pc == CopyOut ==> c.rounds == 0 && |c.reqs| == c.total)
    && (c.op == WriteOp ==> c.total == 1 && (c.pc in {Pass, Done} ==> c.reqs == [c.req]))
    && (c.op == SysfsOp ==> c.total == 1)
    && (c.op in {PlainOp, SysfsOp} && c.pc == Done ==> c.got == c.reqs && |c.reqs| == c.total > 0)
  }

  /** Handshakes a call has done. */
  function Taken(c: Call): nat { if c.total > c.rounds then c.total - c.rounds else 0 }

  /** A write's message stays in the buffer until it is posted. */
  predicate HoldsMessage(io: Io, c: Call) {
    c.op == WriteOp && c.pc in {Check, Post} ==> io == Message(c.msg)
  }

  /** The replies a plain read has taken are in the buffer, in order. */
  predicate HoldsReplies(io: Io, c: Call) {
    c.op == PlainOp && c.pc in {Post, Raise, Wait, Fetch, CopyOut} && 0 < Taken(c) <= |c.reqs| ==>
      io == Answers(c.reqs[..Taken(c)])
  }

  /** The requests of a call are on record as its own, only a write's with a message, and
      that its own. */
  predicate Recorded(requests: seq<Request>, c: Call) {
    && (forall r | r in c.reqs :: r < |requests| && requests[r].op == c.op)
    && (c.op != WriteOp ==> forall r | r in c.reqs :: r < |requests| && requests[r].message == Message(0))
    && (c.op == WriteOp && c.pc in {Raise, Wait, Fetch, Pass} ==>
          c.req < |requests| && requests[c.req] == Request(WriteOp, Message(c.msg)))
  }

  predicate Buffered(s: State, c: Call) {
    HoldsMessage(s.io, c) && HoldsReplies(s.io, c) && Recorded(s.requests, c)
  }

  predicate Sound(s: State, t: Tid) { t in s.calls ==> Counted(s.calls[t]) && Buffered(s, s.calls[t]) }

  /** Each successful write's request carries that write's message. */
  ghost predicate Signed(s: State) {
    && |s.requests| == s.next && |s.msgs| == |s.writes|
    && forall i | 0 <= i < |s.writes| ::
         s.writes[i] < |s.requests| && s.requests[s.writes[i]] == Request(WriteOp, Message(s.msgs[i]))
  }

  ghost predicate AllSound(s: State) { Signed(s) && forall t :: Sound(s, t) }

  // ---------- every step keeps it ----------

  /** The call after its own step, and the buffer and requests it leaves. */
  lemma CountedKeeps(s: State, st: Step, t: Tid)
    requires Enabled(s, st) && By(st, t) && Placed(s, t) && !st.TakeResult? && !st.CopyToUser?
    requires t in s.calls ==> Counted(s.calls[t])
    ensures t in Do(s, st).calls ==> Counted(Do(s, st).calls[t])
  {}

  lemma MessageKeeps(s: State, st: Step, t: Tid)
    requires Enabled(s, st) && By(st, t) && Placed(s, t) && (t in s.calls ==> HoldsMessage(s.io, s.calls[t]))
    ensures t in Do(s, st).calls ==> HoldsMessage(Do(s, st).io, Do(s, st).calls[t])
  {}

  lemma RepliesKeep(s: State, st: Step, t: Tid)
    requires Enabled(s, st) && By(st, t) && Placed(s, t) && !st.TakeResult? && !st.CopyToUser?
    requires t in s.calls ==> Counted(s.calls[t]) && HoldsReplies(s.io, s.calls[t])
    ensures t in Do(s, st).calls ==> HoldsReplies(Do(s, st).io, Do(s, st).calls[t])
  {
    if st.PostRequest? {
      var c := s.calls[t];
      if Taken(c) <= |c.reqs| { assert (c.reqs + [s.next])[..Taken(c)] == c.reqs[..Taken(c)]; }
    }
  }

  lemma RecordedKeeps(s: State, st: Step, t: Tid)
    requires Enabled(s, st) && By(st, t) && Placed(s, t) && |s.requests| == s.next
    requires t in s.calls ==> Recorded(s.requests, s.calls[t]) && HoldsMessage(s.io, s.calls[t])
    ensures t in Do(s, st).calls ==> Recorded(Do(s, st).requests, Do(s, st).calls[t])
  {}

  /** The reply just taken is stored behind the ones taken before. */
  lemma TakeKeeps(s: State, t: Tid)
    requires Enabled(s, TakeResult(t)) && Placed(s, t) && s.result == s.calls[t].req
    requires Counted(s.calls[t]) && HoldsReplies(s.io, s.calls[t])
    ensures var s' := Do(s, TakeResult(t)); Counted(s'.calls[t]) && HoldsReplies(s'.io, s'.calls[t])
  {
    var c := s.calls[t];
    if c.op != ReadOp { assert c.reqs[..Taken(c) + 1] == c.reqs[..Taken(c)] + [c.req]; }
  }

  lemma DeliverKeeps(s: State, t: Tid)
    requires Enabled(s, CopyToUser(t)) && Placed(s, t) && Counted(s.calls[t]) && HoldsReplies(s.io, s.calls[t])
    ensures var s' := Do(s, CopyToUser(t)); Counted(s'.calls[t]) && HoldsReplies(s'.io, s'.calls[t])
  {
    var c := s.calls[t];
    if c.op == PlainOp { assert c.reqs[..Taken(c)] == c.reqs; }
  }

  lemma OwnSound(s: State, st: Step, t: Tid)
    requires Validator.Inv(s) && AllSound(s) && Enabled(s, st) && By(st, t)
    ensures Sound(Do(s, st), t)
  {
    assert Sound(s, t) && Placed(s, t) && Handshake(s, t);
    hide Do, Counted, HoldsMessage, HoldsReplies, Recorded;
    MessageKeeps(s, st, t);
    RecordedKeeps(s, st, t);
    if st.TakeResult? {
      assert st == TakeResult(t);
      TakeKeeps(s, t);
    } else if st.CopyToUser? {
      assert st == CopyToUser(t);
      DeliverKeeps(s, t);
    } else {
      CountedKeeps(s, st, t);
      RepliesKeep(s, st, t);
    }
  }

  /** The log of requests only grows. */
  lemma RequestsGrow(s: State, st: Step)
    requires Enabled(s, st)
    ensures s.requests <= Do(s, st).requests
  {}

  lemma OtherSound(s: State, st: Step, t: Tid)
    requires Validator.Inv(s) && AllSound(s) && Enabled(s, st) && !By(st, t)
    ensures Sound(Do(s, st), t)
  {
    assert Sound(s, t);
    OthersUntouched(s, st, t);
    RequestsGrow(s, st);
    if t in s.calls && Inside(s.calls[t]) { LeftAlone(s, st, t); }
    hide Do, Enabled, Validator.Inv, AllSound;
  }

  lemma SignedKeeps(s: State, st: Step)
    requires Validator.Inv(s) && AllSound(s) && Enabled(s, st)
    ensures Signed(Do(s, st))
  {
    RequestsGrow(s, st);
    if st.Up? {
      assert Sound(s, st.t) && Placed(s, st.t);
      UpSigns(s, st.t);
    } else {
      LogsStay(s, st);
      hide Do, Enabled;
    }
  }

  lemma UpSigns(s: State, t: Tid)
    requires Signed(s) && Enabled(s, Up(t)) && Placed(s, t) && Recorded(s.requests, s.calls[t])
    ensures Signed(Do(s, Up(t)))
  {}

  lemma LogsStay(s: State, st: Step)
    requires Enabled(s, st) && !st.Up? && |s.requests| == s.next
    ensures Do(s, st).writes == s.writes && Do(s, st).msgs == s.msgs && |Do(s, st).requests| == Do(s, st).next
  {}

  lemma StepSound(s: State, st: Step)
    requires Validator.Inv(s) && AllSound(s) && Enabled(s, st)
    ensures Validator.Inv(Do(s, st)) && AllSound(Do(s, st))
  {
    Validator.StepKeeps(s, st);
    SignedKeeps(s, st);
    forall t ensures Sound(Do(s, st), t) {
      if By(st, t) { OwnSound(s, st, t); } else { OtherSound(s, st, t); }
    }
  }

  lemma {:induction false} RunSound(s: State, steps: seq<Step>, s': State)
    requires Validator.Inv(s) && AllSound(s) && Runs(s, steps, s')
    ensures Validator.Inv(s') && AllSound(s')
    decreases |steps|
  {
    hide Validator.Inv, AllSound, Do, Enabled;
    if steps != [] {
      StepSound(s, steps[0]);
      RunSound(Do(s, steps[0]), steps[1..], s');
    }
  }

  lemma Reached(steps: seq<Step>, s: State)
    requires Runs(Init, steps, s)
    ensures Validator.Inv(s) && AllSound(s)
  {
    RunSound(Init, steps, s);
  }

  // ---------- main results ----------

  /** In every run, a read of the random or entropy device, and a sysfs handler, that
      has returned was given the replies to exactly the requests it posted, in order,
      as many as it set out to post. */
  lemma CallerGetsItsReplies(steps: seq<Step>, s: State, t: Tid)
    requires Runs(Init, steps, s) && t in s.calls && s.calls[t].op in {PlainOp, SysfsOp} && s.calls[t].pc == Done
    ensures var c := s.calls[t]; c.got == c.reqs && |c.reqs| == c.total > 0
    ensures forall r | r in s.calls[t].reqs :: r < |s.requests| && s.requests[r] == Request(s.calls[t].op, Message(0))
  {
    Reached(steps, s);
    assert Sound(s, t);
  }

  /** In every run, what such a read is about to copy to its caller are those replies. */
  lemma BufferHoldsReplies(steps: seq<Step>, s: State, t: Tid)
    requires Runs(Init, steps, s) && At(s, t, CopyOut) && s.calls[t].op == PlainOp
    ensures s.io == Answers(s.calls[t].reqs) && |s.calls[t].reqs| == s.calls[t].total
  {
    Reached(steps, s);
    assert Sound(s, t);
    var c := s.calls[t];
    assert Counted(c) && c.reqs[..c.total] == c.reqs;
  }

  /** In every run, the reply a read of the signing or authenticating device delivers is
      to a request that carried exactly the message of the latest successful write. */
  lemma ReplyIsToTheMessage(steps: seq<Step>, s: State, st: Step)
    requires Runs(Init, steps, s) && Enabled(s, st) && st.CopyToUser? && s.calls[st.t].op == ReadOp
    ensures s.msgs != [] && |s.msgs| == |s.writes|
    ensures var r := Do(s, st).calls[st.t].got;
            && |r| == 1 && r[0] == s.writes[|s.writes| - 1] < |s.requests|
            && s.requests[r[0]] == Request(WriteOp, Message(s.msgs[|s.msgs| - 1]))
  {
    Reached(steps, s);
    ReadGetsLatestReply(steps, s, st);
    assert Pending(s, st.t);
    hide Callers, Answered;
  }
}
