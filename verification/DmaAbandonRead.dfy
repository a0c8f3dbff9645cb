/**
  What a read leaves behind when it is interrupted, or asks for nothing, and when
  the next write's fill-level guard still protects the slot it is about to fill.
 */
module DmaAbandonRead {
  import opened MsgDma
  import opened DmaRing
  import opened DmaAbandon

  /** Where a round of a read loop has been: p, where the fill level was zero (except
      for the first two blocks), and b, where its descriptor was submitted. */
  datatype ReadVisit = ReadVisit(p: Engine, b: Engine)

  /** Block i is submitted, and the engine runs to e. */
  ghost predicate ReadRound(t: Transfer, i: nat, v: ReadVisit, e: Engine) {
    && 1024 * (i + 1) <= |t.data| && (i >= 2 ==> FillLevel(v.p) <= 0)
    && After(v.p, v.b) && After(Submit(v.b, BlockDescriptor(t, i)), e)
  }

  /** A read loop that started in e0 has submitted these blocks and is now in e. */
  ghost predicate ReadHistory(t: Transfer, e0: Engine, h: seq<ReadVisit>, e: Engine)
    decreases |h|
  {
    if h == [] then After(e0, e)
    else var k := |h| - 1; ReadHistory(t, e0, h[..k], h[k].p) && ReadRound(t, k, h[k], e)
  }

  /** A read is in e with k blocks submitted. */
  ghost predicate ReadReached(t: Transfer, e0: Engine, k: nat, e: Engine) {
    exists h | |h| == k :: ReadHistory(t, e0, h, e)
  }

  lemma ReadHistoryLater(t: Transfer, e0: Engine, h: seq<ReadVisit>, e: Engine, e': Engine)
    requires ReadHistory(t, e0, h, e) && After(e, e')
    ensures ReadHistory(t, e0, h, e')
  {
    hide After;
    if h == [] {
      AfterTrans(e0, e, e');
    } else {
      var k := |h| - 1;
      AfterTrans(Submit(h[k].b, BlockDescriptor(t, k)), e, e');
    }
  }

  lemma ReadHistoryNext(t: Transfer, e0: Engine, h: seq<ReadVisit>, v: ReadVisit, e: Engine)
    requires ReadHistory(t, e0, h, v.p) && ReadRound(t, |h|, v, e)
    ensures ReadHistory(t, e0, h + [v], e)
  {
    assert (h + [v])[..|h|] == h;
  }

  lemma EmptyReadHistory(t: Transfer, e0: Engine)
    ensures ReadHistory(t, e0, [], e0)
  {
    AfterSelf(e0);
  }

  /** A read that starts on an idle engine. */
  ghost predicate ReadStarts(t: Transfer, e0: Engine) {
    && Geometry(t) && !t.toRam && t.staged == 0 && Idle(e0) && t.first == |e0.submitted| && t.bus0 == e0.bus
    && t.data == e0.bus[t.ram..t.ram + |t.data|]
  }

  /** Wherever it is interrupted, the invariant of the transfer holds. */
  lemma {:induction false} ReadHistoryKeeps(t: Transfer, e0: Engine, h: seq<ReadVisit>, e: Engine)
    requires ReadStarts(t, e0) && ReadHistory(t, e0, h, e)
    ensures Pipeline(t, e) && Blocks(t, e) == |h|
    decreases |h|
  {
    hide Pipeline, After, Geometry;
    if h == [] {
      Start(t, e0);
      AfterKeeps(t, e0, e);
      SameQueue(e0, e);
    } else {
      var k := |h| - 1;
      var v := h[k];
      ReadHistoryKeeps(t, e0, h[..k], v.p);
      AfterKeeps(t, v.p, v.b);
      SameQueue(v.p, v.b);
      SubmitKeeps(t, v.b);
      AfterKeeps(t, Submit(v.b, BlockDescriptor(t, k)), e);
      SameQueue(Submit(v.b, BlockDescriptor(t, k)), e);
    }
  }

  /** The first descriptor that may be unfinished with k blocks of a read submitted. */
  function OldestOpen(f: nat, k: nat): nat { if k < 2 then f else f + k - 2 }

  /** An empty queue leaves at most the last descriptor unfinished. */
  lemma EmptyQueueSane(e: Engine, first: nat)
    requires Sane(e, first) && FillLevel(e) <= 0 && |e.submitted| > 0
    ensures Sane(e, |e.submitted| - 1)
  {}

  lemma SaneEarlier(e: Engine, first: nat, before: nat)
    requires Sane(e, first) && before <= first
    ensures Sane(e, before)
  {}

  /** At most the last two blocks of a read are unfinished. */
  lemma {:induction false} ReadQueue(t: Transfer, e0: Engine, h: seq<ReadVisit>, e: Engine)
    requires ReadHistory(t, e0, h, e) && Idle(e0)
    ensures Sane(e, OldestOpen(|e0.submitted|, |h|)) && e.submitted == e0.submitted + Queue(t, |h|) && |e.bus| == |e0.bus|
    ensures 1024 * |h| <= |t.data|
    decreases |h|
  {
    hide After, Sane, Idle, FillLevel;
    var f := |e0.submitted|;
    if h == [] {
      IdleIsSane(e0);
      AfterSane(e0, e, f);
    } else {
      var k := |h| - 1;
      var v := h[k];
      ReadQueue(t, e0, h[..k], v.p);
      if k >= 2 { EmptyQueueSane(v.p, OldestOpen(f, k)); }
      assert Sane(v.p, OldestOpen(f, k + 1));
      AfterSane(v.p, v.b, OldestOpen(f, k + 1));
      SubmitSane(v.b, BlockDescriptor(t, k), OldestOpen(f, k + 1));
      AfterSane(Submit(v.b, BlockDescriptor(t, k)), e, OldestOpen(f, k + 1));
      assert Queue(t, |h|) == Queue(t, k) + [BlockDescriptor(t, k)];
    }
  }

  lemma SubmitSane(e: Engine, d: Descriptor, first: nat)
    requires Sane(e, first)
    ensures Sane(Submit(e, d), first)
  {}

  // ---------- the next write ----------

  /** A read, and after it a write through the same page. */
  ghost predicate ReadThenWrite(t: Transfer, t2: Transfer, e0: Engine) {
    ReadStarts(t, e0) && Geometry(t2) && t2.toRam && t2.ring == t.ring && |t2.bus0| == |t.bus0|
  }

  /** Block j of the write uses the slot of one of the read's last two blocks. */
  predicate InTheWay(k: nat, j: nat) { j < k % 4 <= j + 2 }

  lemma ReadSlotsApart(k: nat, j: nat, i: nat)
    requires !InTheWay(k, j) && k + j - 3 <= i < k && k - 2 <= i
    ensures i % 4 != j % 4
  {}

  lemma ReadLeftOverApart(t: Transfer, t2: Transfer, k: nat, i: nat, j: nat)
    requires Geometry(t) && t2.ring == t.ring && 1024 * (i + 1) <= |t.data|
    requires !InTheWay(k, j) && k + j - 3 <= i < k && k - 2 <= i
    ensures !Touches(BlockDescriptor(t, i), Slot(t2, j))
  {
    ReadSlotsApart(k, j, i);
    SlotsTouch(t, i, j);
  }

  lemma GuardSufficesAfterRead(t: Transfer, t2: Transfer, e0: Engine, h: seq<ReadVisit>, m: Engine, h2: seq<Visit>, e: Engine)
    requires ReadThenWrite(t, t2, e0) && ReadHistory(t, e0, h, m) && History(t2, m, h2, e) && FillLevel(e) <= 2
    requires !InTheWay(|h|, |h2|) && 1024 * (|h2| + 1) <= |t2.data|
    ensures Quiet(e, Slot(t2, |h2|))
  {
    hide History, ReadHistory, Geometry, Touches, BlockDescriptor, Slot, Sane, FillLevel, Queue, InTheWay;
    var f, k, j := |e0.submitted|, |h|, |h2|;
    ReadQueue(t, e0, h, m);
    HistoryQueue(t2, m, h2, e, OldestOpen(f, k));
    hide Idle;
    forall x: nat | Unfinished(e, x) ensures !Touches(e.submitted[x], Slot(t2, j)) {
      LastThree(e, OldestOpen(f, k), x);
      QueueAt(e0.submitted, t, k, t2, j, x);
      if x < f + k { ReadLeftOverApart(t, t2, k, x - f, j); } else { OwnApart(t2, x - f - k, j); }
    }
  }

  /** A write through another page is protected whatever a read has left over. */
  lemma OtherPageAfterRead(t: Transfer, t2: Transfer, e0: Engine, h: seq<ReadVisit>, m: Engine, h2: seq<Visit>, e: Engine)
    requires ReadStarts(t, e0) && Geometry(t2) && ReadHistory(t, e0, h, m) && History(t2, m, h2, e) && FillLevel(e) <= 2
    requires !Overlaps(t.ring, 4096, t2.ring, 4096) && !Overlaps(t2.ring, 4096, t.ram, |t.data|)
    requires 1024 * (|h2| + 1) <= |t2.data|
    ensures Quiet(e, Slot(t2, |h2|))
  {
    hide History, ReadHistory, Geometry, Sane, FillLevel, Queue, Overlaps, Quiet;
    ReadQueue(t, e0, h, m);
    SaneEarlier(m, OldestOpen(|e0.submitted|, |h|), |e0.submitted|);
    OtherPageQuiet(t, t2, e0.submitted, |h|, m, h2, e);
  }

  // ---------- where the guard fails ----------

  /** A block is submitted while the engine does nothing. */
  lemma PlainRead(t: Transfer, e0: Engine, h: seq<ReadVisit>, p: Engine) returns (h': seq<ReadVisit>, e: Engine)
    requires ReadHistory(t, e0, h, p) && (|h| >= 2 ==> FillLevel(p) <= 0) && 1024 * (|h| + 1) <= |t.data|
    ensures |h'| == |h| + 1 && ReadHistory(t, e0, h', e) && e == Submit(p, BlockDescriptor(t, |h|))
  {
    hide After, ReadHistory;
    e := Submit(p, BlockDescriptor(t, |h|));
    AfterSelf(p);
    AfterSelf(e);
    ReadHistoryNext(t, e0, h, ReadVisit(p, p), e);
    h' := h + [ReadVisit(p, p)];
  }

  /** i blocks submitted, and the engine given time to finish them all. */
  lemma {:induction false} DrainedReads(t: Transfer, e0: Engine, i: nat) returns (h: seq<ReadVisit>, e: Engine)
    requires ReadStarts(t, e0) && 1024 * i <= |t.data|
    ensures |h| == i && ReadHistory(t, e0, h, e) && !Busy(e)
    ensures e.reader.done == e.reader.popped == e.writer.done == e.writer.popped == |e.submitted| == |e0.submitted| + i
    decreases i
  {
    hide Pipeline, After, ReadHistory, Geometry;
    h, e := [], e0;
    if i == 0 {
      EmptyReadHistory(t, e0);
    } else {
      h, e := DrainedReads(t, e0, i - 1);
      h, e := PlainRead(t, e0, h, e);
      ReadHistoryKeeps(t, e0, h, e);
      var e' := DrainRun(t, e);
      ReadHistoryLater(t, e0, h, e, e');
      ReadQueue(t, e0, h, e');
      e := e';
    }
  }

  /** The read's last one or two blocks in flight, the older of them taken up. */
  lemma TwoInFlight(t: Transfer, e0: Engine, i: nat, r: nat) returns (h: seq<ReadVisit>, m: Engine)
    requires ReadStarts(t, e0) && 1 <= r <= 2 && 1024 * (i + r) <= |t.data|
    ensures |h| == i + r && ReadHistory(t, e0, h, m) && |m.submitted| == |e0.submitted| + i + r
    ensures m.reader.popped == m.writer.popped == |e0.submitted| + i + 1 && m.reader.done == |e0.submitted| + i
  {
    hide After, ReadHistory, ReadStarts;
    h, m := DrainedReads(t, e0, i);
    h, m := PlainRead(t, e0, h, m);
    var m' := PopBoth(m, |e0.submitted| + i);
    ReadHistoryLater(t, e0, h, m, m');
    m := m';
    if r == 2 { h, m := PlainRead(t, e0, h, m); }
  }

  /** If block j is in the way of a block left over, a run of both calls passes the
      guard while its slot is still being written for that block. */
  lemma GuardFailsAfterRead(t: Transfer, t2: Transfer, e0: Engine, k: nat, j: nat) returns (m: Engine, e: Engine)
    requires ReadThenWrite(t, t2, e0) && InTheWay(k, j) && 1024 * k <= |t.data| && 1024 * (j + 1) <= |t2.data|
    ensures ReadReached(t, e0, k, m) && Reached(t2, m, j, e) && FillLevel(e) <= 2 && !Quiet(e, Slot(t2, j))
  {
    hide After, History, ReadHistory, Geometry;
    var f, r := |e0.submitted|, k % 4 - j;
    var i := k - r;
    var h, h2;
    h, m := TwoInFlight(t, e0, i, r);
    ReadQueue(t, e0, h, m);
    EmptyHistory(t2, m);
    InReadPage(t, e0);
    h2, e := PlainRounds(t2, m, [], m, j);
    HistoryQueue(t2, m, h2, e, OldestOpen(f, k));
    assert Unfinished(e, f + i) && e.submitted[f + i] == BlockDescriptor(t, i);
    SlotsTouch(t, i, j);
    assert i % 4 == j % 4;
    assert Slot(t, j) == Slot(t2, j);
  }

  lemma InReadPage(t: Transfer, e0: Engine)
    requires ReadStarts(t, e0)
    ensures t.ring + 4096 <= |e0.bus|
  {}

  /** After a read with k blocks submitted, the fill-level guard of the next write
      through the same page protects the slot of its block j, in every run, if and only
      if not j < k % 4 <= j + 2.  An empty read counts as one block. */
  lemma GuardAfterReadIff(t: Transfer, t2: Transfer, e0: Engine, k: nat, j: nat)
    requires ReadThenWrite(t, t2, e0) && 1024 * k <= |t.data| && 1024 * (j + 1) <= |t2.data|
    ensures (forall m, e | ReadReached(t, e0, k, m) && Reached(t2, m, j, e) && FillLevel(e) <= 2 :: Quiet(e, Slot(t2, j)))
            <==> !InTheWay(k, j)
  {
    hide History, ReadHistory, Quiet, ReadThenWrite, InTheWay;
    if !InTheWay(k, j) {
      forall m, e | ReadReached(t, e0, k, m) && Reached(t2, m, j, e) && FillLevel(e) <= 2 ensures Quiet(e, Slot(t2, j)) {
        var h :| |h| == k && ReadHistory(t, e0, h, m);
        var h2 :| |h2| == j && History(t2, m, h2, e);
        GuardSufficesAfterRead(t, t2, e0, h, m, h2, e);
      }
    } else {
      var m, e := GuardFailsAfterRead(t, t2, e0, k, j);
    }
  }

  // ---------- following a loop ----------

  /** One turn of a read loop with u + 1 blocks submitted: it may submit one more. */
  ghost predicate ReadStep(t: Transfer, u: nat, was: Engine, pushed: bool, b: Engine, e: Engine) {
    if pushed then After(was, b) && After(Submit(b, BlockDescriptor(t, u + 1)), e) else After(was, e)
  }

  lemma ReadStepLater(t: Transfer, u: nat, was: Engine, pushed: bool, b: Engine, e: Engine, e': Engine)
    requires ReadStep(t, u, was, pushed, b, e) && After(e, e')
    ensures ReadStep(t, u, was, pushed, b, e')
  {
    hide After;
    AfterTrans(if pushed then Submit(b, BlockDescriptor(t, u + 1)) else was, e, e');
  }

  /** The history after such a turn; g is where the queue was last seen empty. */
  lemma ReadGoesOn(t: Transfer, e0: Engine, h: seq<ReadVisit>, g: Engine, was: Engine, pushed: bool, b: Engine, e: Engine)
    returns (h': seq<ReadVisit>)
    requires ReadHistory(t, e0, h, g) && After(g, was) && |h| > 0 && (|h| >= 2 ==> FillLevel(g) <= 0)
    requires ReadStep(t, |h| - 1, was, pushed, b, e) && (pushed ==> 1024 * (|h| + 1) <= |t.data|)
    ensures ReadHistory(t, e0, h', e) && |h'| == |h| + (if pushed then 1 else 0)
  {
    hide After, ReadHistory;
    h' := h;
    if pushed {
      AfterTrans(g, was, b);
      ReadHistoryNext(t, e0, h, ReadVisit(g, b), e);
      h' := h + [ReadVisit(g, b)];
    } else {
      AfterTrans(g, was, e);
      ReadHistoryLater(t, e0, h, g, e);
    }
  }
}
