/**
  What a write leaves behind when it is interrupted, and when the next call's
  fill-level guard still protects the slot that call is about to fill.
 */
module DmaAbandon {
  import opened MsgDma
  import opened DmaRing

  /** Block i copied into its slot. */
  function Staged(t: Transfer, i: nat, e: Engine): Engine
    requires 1024 * (i + 1) <= |t.data| && Slot(t, i) + 1024 <= |e.bus|
  {
    e.(bus := Splice(e.bus, Slot(t, i), Block(t.data, i)))
  }

  /** Where a round of a write loop has been: p, where the fill level was at most two;
      a, after which its block was copied in; b, where its descriptor was submitted. */
  datatype Visit = Visit(p: Engine, a: Engine, b: Engine)

  /** The round for block i, ending in e; the engine may run in between. */
  ghost predicate Round(t: Transfer, i: nat, v: Visit, e: Engine) {
    && 1024 * (i + 1) <= |t.data| && FillLevel(v.p) <= 2 && After(v.p, v.a) && Slot(t, i) + 1024 <= |v.a.bus|
    && After(Staged(t, i, v.a), v.b) && After(Submit(v.b, BlockDescriptor(t, i)), e)
  }

  /** A write loop that started in e0 has gone through these rounds and is now in e. */
  ghost predicate History(t: Transfer, e0: Engine, h: seq<Visit>, e: Engine)
    decreases |h|
  {
    if h == [] then After(e0, e)
    else var k := |h| - 1; History(t, e0, h[..k], h[k].p) && Round(t, k, h[k], e)
  }

  /** It can be interrupted in e with k blocks submitted. */
  ghost predicate Reached(t: Transfer, e0: Engine, k: nat, e: Engine) {
    exists h | |h| == k :: History(t, e0, h, e)
  }

  lemma HistoryLater(t: Transfer, e0: Engine, h: seq<Visit>, e: Engine, e': Engine)
    requires History(t, e0, h, e) && After(e, e')
    ensures History(t, e0, h, e')
  {
    hide After;
    if h == [] {
      AfterTrans(e0, e, e');
    } else {
      var k := |h| - 1;
      AfterTrans(Submit(h[k].b, BlockDescriptor(t, k)), e, e');
    }
  }

  lemma HistoryNext(t: Transfer, e0: Engine, h: seq<Visit>, v: Visit, e: Engine)
    requires History(t, e0, h, v.p) && Round(t, |h|, v, e)
    ensures History(t, e0, h + [v], e)
  {
    assert (h + [v])[..|h|] == h;
  }

  /** A write that starts on an idle engine. */
  ghost predicate Starts(t: Transfer, e0: Engine) {
    Geometry(t) && t.toRam && t.staged == 0 && Idle(e0) && t.first == |e0.submitted| && t.bus0 == e0.bus
  }

  /** Wherever it is interrupted, the invariant of the transfer holds. */
  lemma {:induction false} HistoryKeeps(t: Transfer, e0: Engine, h: seq<Visit>, e: Engine)
    requires Starts(t, e0) && History(t, e0, h, e)
    ensures Pipeline(t.(staged := |h|), e) && Blocks(t, e) == |h|
    decreases |h|
  {
    hide Pipeline, After, Round;
    if h == [] {
      Start(t, e0);
      AfterKeeps(t, e0, e);
      assert t.(staged := 0) == t;
    } else {
      var k := |h| - 1;
      HistoryKeeps(t, e0, h[..k], h[k].p);
      RoundKeeps(t, k, h[k], e);
    }
  }

  lemma RoundKeeps(t: Transfer, i: nat, v: Visit, e: Engine)
    requires t.toRam && Pipeline(t.(staged := i), v.p) && Blocks(t, v.p) == i && Round(t, i, v, e)
    ensures Pipeline(t.(staged := i + 1), e) && Blocks(t, e) == i + 1
  {
    hide Pipeline, After, Quiet, Later;
    var t0, t1 := t.(staged := i), t.(staged := i + 1);
    RoundStages(t0, v.p, v.a);
    AfterKeeps(t1, Staged(t, i, v.a), v.b);
    SameQueue(Staged(t, i, v.a), v.b);
    SubmitKeeps(t1, v.b);
    AfterKeeps(t1, Submit(v.b, BlockDescriptor(t, i)), e);
    SameQueue(Submit(v.b, BlockDescriptor(t, i)), e);
  }

  lemma SameQueue(e: Engine, e': Engine)
    requires After(e, e')
    ensures e'.submitted == e.submitted && |e'.bus| == |e.bus|
  {
    var acts :| Runs(e, acts, e');
    RunsFrame(e, acts, e');
  }

  lemma RoundStages(t: Transfer, p: Engine, a: Engine)
    requires t.toRam && Pipeline(t, p) && Blocks(t, p) == t.staged && FillLevel(p) <= 2 && After(p, a)
    requires 1024 * (t.staged + 1) <= |t.data|
    ensures Slot(t, t.staged) + 1024 <= |a.bus| && a.submitted == p.submitted
    ensures Pipeline(t.(staged := t.staged + 1), Staged(t, t.staged, a))
  {
    hide Pipeline, After;
    NextSlotQuiet(t, p);
    AfterKeeps(t, p, a);
    QuietLater(p, a, Slot(t, t.staged));
    StageKeeps(t, a);
  }

  // ---------- the queue, whatever the ring holds ----------

  predicate SaneMaster(m: Master, first: nat, n: nat) { first <= m.done <= m.popped <= n && m.popped <= m.done + 1 }

  predicate Sane(e: Engine, first: nat) {
    SaneMaster(e.reader, first, |e.submitted|) && SaneMaster(e.writer, first, |e.submitted|)
  }

  lemma {:induction false} RunsSane(e: Engine, acts: seq<Action>, e': Engine, first: nat)
    requires Runs(e, acts, e') && Sane(e, first)
    ensures Sane(e', first) && e'.submitted == e.submitted && |e'.bus| == |e.bus|
    decreases |acts|
  {
    if acts != [] { RunsSane(Do(e, acts[0]), acts[1..], e', first); }
  }

  lemma AfterSane(e: Engine, e': Engine, first: nat)
    requires After(e, e') && Sane(e, first)
    ensures Sane(e', first) && e'.submitted == e.submitted && |e'.bus| == |e.bus|
  {
    var acts :| Runs(e, acts, e');
    RunsSane(e, acts, e', first);
  }

  /** The descriptors of a call's first k blocks. */
  function Queue(t: Transfer, k: nat): (q: seq<Descriptor>)
    ensures |q| == k && forall i | 0 <= i < k :: q[i] == BlockDescriptor(t, i)
  {
    seq(k, i requires 0 <= i < k => BlockDescriptor(t, i))
  }

  lemma {:induction false} HistoryQueue(t: Transfer, e0: Engine, h: seq<Visit>, e: Engine, first: nat)
    requires History(t, e0, h, e) && Sane(e0, first)
    ensures Sane(e, first) && e.submitted == e0.submitted + Queue(t, |h|) && |e.bus| == |e0.bus|
    ensures h == [] || 1024 * |h| <= |t.data|
    decreases |h|
  {
    hide After, Sane;
    if h == [] {
      AfterSane(e0, e, first);
    } else {
      var k := |h| - 1;
      HistoryQueue(t, e0, h[..k], h[k].p, first);
      RoundQueue(t, k, h[k], e, first);
      assert Queue(t, |h|) == Queue(t, k) + [BlockDescriptor(t, k)];
    }
  }

  lemma RoundQueue(t: Transfer, i: nat, v: Visit, e: Engine, first: nat)
    requires Round(t, i, v, e) && Sane(v.p, first)
    ensures Sane(e, first) && e.submitted == v.p.submitted + [BlockDescriptor(t, i)] && |e.bus| == |v.p.bus|
  {
    hide After;
    AfterSane(v.p, v.a, first);
    AfterSane(Staged(t, i, v.a), v.b, first);
    AfterSane(Submit(v.b, BlockDescriptor(t, i)), e, first);
  }

  // ---------- the next call ----------

  /** Two writes through the same page, the second after the first was abandoned. */
  ghost predicate SamePage(t: Transfer, t2: Transfer, e0: Engine) {
    Starts(t, e0) && Geometry(t2) && t2.toRam && t2.ring == t.ring && |t2.bus0| == |t.bus0|
  }

  lemma IdleIsSane(e: Engine)
    requires Idle(e)
    ensures Sane(e, |e.submitted|)
  {}

  lemma SlotsApart(k: nat, j: nat, i: nat)
    requires k % 4 <= j && k + j - 3 <= i < k
    ensures i % 4 != j % 4
  {}

  /** What is unfinished under the guard: the last three descriptors at most. */
  lemma LastThree(e: Engine, first: nat, x: nat)
    requires Sane(e, first) && FillLevel(e) <= 2 && Unfinished(e, x)
    ensures first <= x && |e.submitted| - 3 <= x < |e.submitted|
  {}

  /** A block left over and one of the next call, in the same page. */
  lemma LeftOverApart(t: Transfer, t2: Transfer, k: nat, i: nat, j: nat)
    requires Geometry(t) && t2.ring == t.ring && 1024 * (i + 1) <= |t.data| && k % 4 <= j && k + j - 3 <= i < k
    ensures !Touches(BlockDescriptor(t, i), Slot(t2, j))
  {
    SlotsApart(k, j, i);
    SlotsTouch(t, i, j);
  }

  lemma OwnApart(t: Transfer, i: nat, j: nat)
    requires Geometry(t) && 1024 * (i + 1) <= |t.data| && j - 3 <= i < j
    ensures !Touches(BlockDescriptor(t, i), Slot(t, j))
  {
    SlotsTouch(t, i, j);
  }

  /** The queue behind two calls: where a descriptor stands, and whose it is. */
  lemma QueueAt(q0: seq<Descriptor>, t: Transfer, k: nat, t2: Transfer, j: nat, x: nat)
    requires |q0| <= x < |q0| + k + j
    ensures (q0 + Queue(t, k) + Queue(t2, j))[x]
            == if x < |q0| + k then BlockDescriptor(t, x - |q0|) else BlockDescriptor(t2, x - |q0| - k)
  {}

  /** With k blocks left over and k % 4 <= j, the guard protects the slot of block j. */
  lemma GuardSuffices(t: Transfer, t2: Transfer, e0: Engine, h: seq<Visit>, m: Engine, h2: seq<Visit>, e: Engine)
    requires SamePage(t, t2, e0) && History(t, e0, h, m) && History(t2, m, h2, e) && FillLevel(e) <= 2
    requires |h| % 4 <= |h2| && 1024 * (|h2| + 1) <= |t2.data|
    ensures Quiet(e, Slot(t2, |h2|))
  {
    hide History, Geometry, Touches, BlockDescriptor, Slot, Sane, FillLevel, Queue;
    var f, k, j := |e0.submitted|, |h|, |h2|;
    IdleIsSane(e0);
    HistoryQueue(t, e0, h, m, f);
    HistoryQueue(t2, m, h2, e, f);
    hide Idle;
    forall x: nat | Unfinished(e, x) ensures !Touches(e.submitted[x], Slot(t2, j)) {
      LastThree(e, f, x);
      QueueAt(e0.submitted, t, k, t2, j, x);
      if x < f + k { LeftOverApart(t, t2, k, x - f, j); } else { OwnApart(t2, x - f - k, j); }
    }
  }

  /** The next write goes through another page: nothing left over is in its way. */
  lemma OtherPageQuiet(t: Transfer, t2: Transfer, q0: seq<Descriptor>, k: nat, m: Engine, h2: seq<Visit>, e: Engine)
    requires Sane(m, |q0|) && m.submitted == q0 + Queue(t, k) && 1024 * k <= |t.data|
    requires Geometry(t2) && History(t2, m, h2, e) && FillLevel(e) <= 2
    requires !Overlaps(t.ring, 4096, t2.ring, 4096) && !Overlaps(t2.ring, 4096, t.ram, |t.data|)
    requires 1024 * (|h2| + 1) <= |t2.data|
    ensures Quiet(e, Slot(t2, |h2|))
  {
    hide History, Geometry, Touches, BlockDescriptor, Slot, Sane, FillLevel, Queue, Overlaps;
    var f, j := |q0|, |h2|;
    HistoryQueue(t2, m, h2, e, f);
    forall x: nat | Unfinished(e, x) ensures !Touches(e.submitted[x], Slot(t2, j)) {
      LastThree(e, f, x);
      QueueAt(q0, t, k, t2, j, x);
      if x < f + k { PagesApart(t, t2, x - f, j); } else { OwnApart(t2, x - f - k, j); }
    }
  }

  /** A write through another page is protected whatever a write has left over. */
  lemma OtherPageIsProtected(t: Transfer, t2: Transfer, e0: Engine, h: seq<Visit>, m: Engine, h2: seq<Visit>, e: Engine)
    requires Starts(t, e0) && Geometry(t2) && History(t, e0, h, m) && History(t2, m, h2, e) && FillLevel(e) <= 2
    requires !Overlaps(t.ring, 4096, t2.ring, 4096) && !Overlaps(t2.ring, 4096, t.ram, |t.data|)
    requires 1024 * (|h2| + 1) <= |t2.data|
    ensures Quiet(e, Slot(t2, |h2|))
  {
    hide History, Geometry, Sane, FillLevel, Queue, Overlaps, Quiet;
    IdleIsSane(e0);
    HistoryQueue(t, e0, h, m, |e0.submitted|);
    OtherPageQuiet(t, t2, e0.submitted, |h|, m, h2, e);
  }

  lemma PagesApart(t: Transfer, t2: Transfer, i: nat, j: nat)
    requires !Overlaps(t.ring, 4096, t2.ring, 4096) && !Overlaps(t2.ring, 4096, t.ram, |t.data|)
    requires 1024 * (i + 1) <= |t.data|
    ensures !Touches(BlockDescriptor(t, i), Slot(t2, j))
  {}

  // ---------- where the guard fails ----------

  /** The engine can always run until it is not busy. */
  lemma DrainRun(t: Transfer, e: Engine) returns (e': Engine)
    requires Pipeline(t, e)
    ensures After(e, e') && !Busy(e')
    decreases Work(e)
  {
    hide Pipeline, After;
    Basics(t, e);
    if Busy(e) {
      Progress(t, e);
      var a := NextAction(e);
      StepKeeps(t, e, a);
      Basics(t, Do(e, a));
      e' := DrainRun(t, Do(e, a));
      AfterOne(e, a);
      AfterTrans(e, Do(e, a), e');
    } else {
      e' := e;
      AfterSelf(e);
    }
  }

  /** A round in which the engine does nothing. */
  lemma PlainRound(t: Transfer, e0: Engine, h: seq<Visit>, p: Engine) returns (h': seq<Visit>, e: Engine)
    requires History(t, e0, h, p) && FillLevel(p) <= 2
    requires 1024 * (|h| + 1) <= |t.data| && t.ring + 4096 <= |p.bus|
    ensures |h'| == |h| + 1 && History(t, e0, h', e)
    ensures e.reader == p.reader && e.writer == p.writer && |e.bus| == |p.bus|
    ensures e.submitted == p.submitted + [BlockDescriptor(t, |h|)]
  {
    hide After, History;
    var k := |h|;
    var b := Staged(t, k, p);
    var v := Visit(p, p, b);
    e := Submit(b, BlockDescriptor(t, k));
    AfterSelf(p);
    AfterSelf(b);
    AfterSelf(e);
    HistoryNext(t, e0, h, v, e);
    h' := h + [v];
  }

  /** n such rounds, as long as the level stays at most two before each. */
  lemma {:induction false} PlainRounds(t: Transfer, e0: Engine, h: seq<Visit>, p: Engine, n: nat)
    returns (h': seq<Visit>, e: Engine)
    requires History(t, e0, h, p) && p.reader.popped == p.writer.popped && |p.submitted| - p.reader.popped + n <= 3
    requires 1024 * (|h| + n) <= |t.data| && t.ring + 4096 <= |p.bus|
    ensures |h'| == |h| + n && History(t, e0, h', e)
    ensures e.reader == p.reader && e.writer == p.writer && |e.bus| == |p.bus| && |e.submitted| == |p.submitted| + n
    decreases n
  {
    hide History;
    h', e := h, p;
    if n > 0 {
      h', e := PlainRound(t, e0, h, p);
      h', e := PlainRounds(t, e0, h', e, n - 1);
    }
  }

  /** i blocks submitted, and the engine given time to finish them all. */
  lemma {:induction false} DrainedRounds(t: Transfer, e0: Engine, i: nat) returns (h: seq<Visit>, e: Engine)
    requires Starts(t, e0) && 1024 * i <= |t.data|
    ensures |h| == i && History(t, e0, h, e) && !Busy(e)
    decreases i
  {
    hide Pipeline, After, History;
    if i == 0 {
      h := [];
      AfterSelf(e0);
      e := e0;
      EmptyHistory(t, e0);
    } else {
      h, e := DrainedRounds(t, e0, i - 1);
      IdleIsSane(e0);
      HistoryQueue(t, e0, h, e, |e0.submitted|);
      h, e := PlainRound(t, e0, h, e);
      HistoryKeeps(t, e0, h, e);
      var e' := DrainRun(t.(staged := i), e);
      HistoryLater(t, e0, h, e, e');
      e := e';
    }
  }

  lemma EmptyHistory(t: Transfer, e0: Engine)
    ensures History(t, e0, [], e0)
  {
    AfterSelf(e0);
  }

  /** Both masters take up the descriptor they are at. */
  lemma PopBoth(e: Engine, f: nat) returns (e': Engine)
    requires e.reader.popped == e.reader.done == e.writer.popped == e.writer.done == f < |e.submitted|
    ensures After(e, e') && e'.submitted == e.submitted && Unfinished(e', f) && FillLevel(e') == |e.submitted| - f - 1
    ensures e'.reader == Pop(e.reader) && e'.writer == Pop(e.writer)
  {
    var e1 := Do(e, PopRead);
    e' := Do(e1, PopWrite);
    AfterOne(e, PopRead);
    AfterOne(e1, PopWrite);
    AfterTrans(e, e1, e');
  }

  /** With k % 4 > j a run of both calls passes the guard while the slot of block j is
      still being read for a block left over. */
  lemma GuardFails(t: Transfer, t2: Transfer, e0: Engine, k: nat, j: nat) returns (m: Engine, e: Engine)
    requires SamePage(t, t2, e0) && k % 4 > j && 1024 * k <= |t.data| && 1024 * (j + 1) <= |t2.data|
    ensures Reached(t, e0, k, m) && Reached(t2, m, j, e) && FillLevel(e) <= 2 && !Quiet(e, Slot(t2, j))
  {
    hide After, History, Geometry;
    var f, r := |e0.submitted|, k % 4 - j;
    var i := k - r;
    var h, h2, d;
    h, d := DrainedRounds(t, e0, i);
    IdleIsSane(e0);
    HistoryQueue(t, e0, h, d, f);
    InPage(t, e0);
    h, m := PlainRounds(t, e0, h, d, r);
    EmptyHistory(t2, m);
    h2, e := PlainRounds(t2, m, [], m, j);
    HistoryQueue(t, e0, h, m, f);
    HistoryQueue(t2, m, h2, e, f);
    var e' := PopBoth(e, f + i);
    HistoryLater(t2, m, h2, e, e');
    e := e';
    assert e.submitted[f + i] == BlockDescriptor(t, i);
    SlotsTouch(t, i, j);
    assert i % 4 == j % 4;
    assert Slot(t, j) == Slot(t2, j);
  }

  lemma InPage(t: Transfer, e0: Engine)
    requires Starts(t, e0)
    ensures t.ring + 4096 <= |e0.bus|
  {}

  /** After a write abandoned with k blocks submitted, the fill-level guard of the next
      write through the same page protects the slot of its block j, in every run, if
      and only if k % 4 <= j.  For its first block: if and only if k % 4 is 0. */
  lemma GuardProtectsNextCallIff(t: Transfer, t2: Transfer, e0: Engine, k: nat, j: nat)
    requires SamePage(t, t2, e0) && 1024 * k <= |t.data| && 1024 * (j + 1) <= |t2.data|
    ensures (forall m, e | Reached(t, e0, k, m) && Reached(t2, m, j, e) && FillLevel(e) <= 2 :: Quiet(e, Slot(t2, j)))
            <==> k % 4 <= j
  {
    hide History, Quiet, SamePage;
    if k % 4 <= j {
      forall m, e | Reached(t, e0, k, m) && Reached(t2, m, j, e) && FillLevel(e) <= 2 ensures Quiet(e, Slot(t2, j)) {
        var h :| |h| == k && History(t, e0, h, m);
        var h2 :| |h2| == j && History(t2, m, h2, e);
        GuardSuffices(t, t2, e0, h, m, h2, e);
      }
    } else {
      var m, e := GuardFails(t, t2, e0, k, j);
    }
  }
}
