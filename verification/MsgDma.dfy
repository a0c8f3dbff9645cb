/**
  The modular scatter-gather DMA engine the copy driver talks to, as a state
  machine, and the invariant that a transfer through a four-slot ring keeps
  under every interleaving of engine actions.

  Hardware assumptions: a control write appends one descriptor to both the
  read queue and the write queue; each master executes its queue in order and
  holds at most one popped but unfinished descriptor; bytes move one at a time
  through an internal FIFO; busy means that something is outstanding.

  Blocks are 1024 bytes and the ring page is 4096 bytes.
 */
module MsgDma {
  import opened Bytes

  datatype Descriptor = Descriptor(src: nat, dst: nat, len: nat)

  /** A read or write master: descriptors popped from its queue, descriptors
      finished, and bytes moved for the one in between. */
  datatype Master = Master(popped: nat, done: nat, ofs: nat)

  /** submitted holds every descriptor so far; the part from a master's popped
      count onward is that master's queue. */
  datatype Engine = Engine(
    bus: seq<byte>, submitted: seq<Descriptor>, reader: Master, writer: Master, fifo: seq<byte>)

  datatype Action = PopRead | ReadByte | FinishRead | PopWrite | WriteByte | FinishWrite

  predicate CanPop(m: Master, n: nat) { m.done == m.popped < n }
  predicate Working(m: Master, n: nat) { m.done < m.popped <= n }
  function Pop(m: Master): Master { m.(popped := m.popped + 1) }
  function Advance(m: Master): Master { m.(ofs := m.ofs + 1) }
  function Finish(m: Master): Master { m.(done := m.done + 1, ofs := 0) }

  predicate Enabled(e: Engine, a: Action) {
    var n := |e.submitted|;
    match a
    case PopRead => CanPop(e.reader, n)
    case ReadByte =>
      Working(e.reader, n) &&
      var d := e.submitted[e.reader.done];
      e.reader.ofs < d.len && d.src + e.reader.ofs < |e.bus|
    case FinishRead => Working(e.reader, n) && e.reader.ofs == e.submitted[e.reader.done].len
    case PopWrite => CanPop(e.writer, n)
    case WriteByte =>
      Working(e.writer, n) && e.fifo != [] &&
      var d := e.submitted[e.writer.done];
      e.writer.ofs < d.len && d.dst + e.writer.ofs < |e.bus|
    case FinishWrite => Working(e.writer, n) && e.writer.ofs == e.submitted[e.writer.done].len
  }

  function Do(e: Engine, a: Action): Engine
    requires Enabled(e, a)
  {
    match a
    case PopRead => e.(reader := Pop(e.reader))
    case ReadByte =>
      e.(fifo := e.fifo + [e.bus[e.submitted[e.reader.done].src + e.reader.ofs]],
         reader := Advance(e.reader))
    case FinishRead => e.(reader := Finish(e.reader))
    case PopWrite => e.(writer := Pop(e.writer))
    case WriteByte =>
      e.(bus := e.bus[e.submitted[e.writer.done].dst + e.writer.ofs := e.fifo[0]],
         fifo := e.fifo[1..],
         writer := Advance(e.writer))
    case FinishWrite => e.(writer := Finish(e.writer))
  }

  ghost predicate Runs(e: Engine, acts: seq<Action>, e': Engine)
    decreases |acts|
  {
    if acts == [] then e == e'
    else Enabled(e, acts[0]) && Runs(Do(e, acts[0]), acts[1..], e')
  }

  function Submit(e: Engine, d: Descriptor): Engine {
    e.(submitted := e.submitted + [d])
  }

  function ReadLevel(e: Engine): int { |e.submitted| - e.reader.popped }
  function WriteLevel(e: Engine): int { |e.submitted| - e.writer.popped }

  function FillLevel(e: Engine): int {
    if WriteLevel(e) > ReadLevel(e) then WriteLevel(e) else ReadLevel(e)
  }

  predicate Busy(e: Engine) {
    e.reader.done < |e.submitted| || e.writer.done < |e.submitted|
  }

  predicate Idle(e: Engine) {
    var n := |e.submitted|;
    e.reader == e.writer == Master(n, n, 0) && e.fifo == []
  }

  /** Descriptor i still has a master that may touch its source or destination. */
  predicate Unfinished(e: Engine, i: nat) {
    i < |e.submitted| && (e.reader.done <= i || e.writer.done <= i)
  }

  predicate Overlaps(a: int, alen: int, b: int, blen: int) {
    a < b + blen && b < a + alen
  }

  predicate Touches(d: Descriptor, a: nat) {
    Overlaps(d.src, d.len, a, 1024) || Overlaps(d.dst, d.len, a, 1024)
  }

  /** No unfinished descriptor reads or writes the block at bus address a. */
  ghost predicate Quiet(e: Engine, a: nat) {
    forall i: nat | Unfinished(e, i) :: !Touches(e.submitted[i], a)
  }

  // ---------- one driver call ----------

  /** Data moves between the ring page and the RAM window. */
  datatype Transfer = Transfer(
    toRam: bool,
    ring: nat,         // bus address of the four-slot page
    ram: nat,          // bus address of the first byte in the 1 MiB buffer
    first: nat,        // number of descriptors submitted before this call
    data: seq<byte>,   // the bytes that travel
    bus0: seq<byte>,   // bus memory when the call started
    staged: nat)       // blocks the CPU has placed in the ring (writes only)

  /** Offset in the page of the slot that block k uses. */
  function RingOfs(k: nat): nat { 1024 * (k % 4) }

  function Slot(t: Transfer, k: nat): nat {
    t.ring + RingOfs(k)
  }

  function BlockDescriptor(t: Transfer, k: nat): Descriptor {
    if t.toRam then Descriptor(Slot(t, k), t.ram + 1024 * k, 1024)
    else Descriptor(t.ram + 1024 * k, Slot(t, k), 1024)
  }

  predicate InRing(t: Transfer, a: int) {
    t.ring <= a < t.ring + 4096
  }

  /** The ring is the page cut into four blocks: stream byte b lives here. */
  function Cell(t: Transfer, b: nat): (a: nat)
    ensures InRing(t, a)
  {
    t.ring + b % 4096
  }

  function SourceOf(t: Transfer, b: nat): nat {
    if t.toRam then Cell(t, b) else t.ram + b
  }

  function TargetOf(t: Transfer, b: nat): nat {
    if t.toRam then t.ram + b else Cell(t, b)
  }

  ghost predicate Geometry(t: Transfer) {
    && t.ring + 4096 <= |t.bus0|
    && t.ram + |t.data| <= |t.bus0|
    && (t.ring + 4096 <= t.ram || t.ram + |t.data| <= t.ring)
  }

  ghost predicate Descriptors(t: Transfer, submitted: seq<Descriptor>) {
    && t.first <= |submitted|
    && 1024 * (|submitted| - t.first) <= |t.data|
    && (forall i: nat | t.first <= i < |submitted| :: submitted[i] == BlockDescriptor(t, i - t.first))
  }

  /** Stream bytes of this call a master has moved. */
  function Moved(t: Transfer, m: Master): int {
    1024 * (m.done - t.first) + m.ofs
  }

  predicate MasterOk(t: Transfer, m: Master, n: nat) {
    && t.first <= m.done <= m.popped <= n
    && m.popped <= m.done + 1
    && (if m.done < m.popped then m.ofs <= 1024 else m.ofs == 0)
  }

  /** Stream bytes lo..hi are intact in the ring. */
  ghost predicate RingHolds(t: Transfer, bus: seq<byte>, lo: nat, hi: nat)
    requires t.ring + 4096 <= |bus| && hi <= |t.data|
  {
    forall b: nat {:trigger Cell(t, b)} | lo <= b < hi :: bus[Cell(t, b)] == t.data[b]
  }

  /** Outside the ring, memory is the old memory with the first n stream bytes
      stored in the RAM window (n is 0 throughout a read). */
  ghost predicate Outside(t: Transfer, bus: seq<byte>, n: nat)
    requires n <= |t.data| && |bus| == |t.bus0|
  {
    forall a {:trigger bus[a]} | 0 <= a < |bus| && !InRing(t, a) ::
      bus[a] == if t.ram <= a < t.ram + n then t.data[a - t.ram] else t.bus0[a]
  }

  /** Memory and FIFO when the masters have moved r and w stream bytes.  For a
      write, staged bytes not yet read are intact in the ring, and outside the
      ring exactly the bytes written so far are replaced.  For a read, nothing
      outside the ring has changed and the last four blocks' worth of written
      bytes are intact. */
  ghost predicate Memory(t: Transfer, bus: seq<byte>, fifo: seq<byte>, r: nat, w: nat)
    requires Geometry(t) && |bus| == |t.bus0|
  {
    && w <= r <= |t.data|
    && fifo == t.data[w..r]
    && if t.toRam then
         && 1024 * t.staged <= |t.data|
         && RingHolds(t, bus, r, 1024 * t.staged)
         && Outside(t, bus, w)
       else
         && t.data == t.bus0[t.ram..t.ram + |t.data|]
         && RingHolds(t, bus, if w < 4096 then 0 else w - 4096, w)
         && Outside(t, bus, 0)
  }

  /** The invariant of a call, whatever the engine has done so far. */
  ghost predicate Pipeline(t: Transfer, e: Engine) {
    var n := |e.submitted|;
    && Geometry(t) && |e.bus| == |t.bus0|
    && Descriptors(t, e.submitted)
    && MasterOk(t, e.reader, n) && MasterOk(t, e.writer, n)
    && (t.toRam ==> 0 <= t.staged - (n - t.first) <= 1)
    && Memory(t, e.bus, e.fifo, Moved(t, e.reader), Moved(t, e.writer))
  }

  /** Engine actions still to come before everything submitted is finished. */
  function MasterWork(m: Master, n: nat): int {
    (n - m.popped) + 1025 * (n - m.done) - m.ofs
  }

  function Work(e: Engine): int {
    MasterWork(e.reader, |e.submitted|) + MasterWork(e.writer, |e.submitted|)
  }

  /** What engine runs cannot undo. */
  predicate Ahead(m: Master, m': Master) {
    m.popped <= m'.popped && m.done <= m'.done
  }

  ghost predicate Later(e: Engine, e': Engine) {
    && e'.submitted == e.submitted && |e'.bus| == |e.bus|
    && Ahead(e.reader, e'.reader) && Ahead(e.writer, e'.writer)
    && (e == e' || Work(e') < Work(e))
  }

  lemma Basics(t: Transfer, e: Engine)
    requires Pipeline(t, e)
    ensures 0 <= Work(e) && 0 <= ReadLevel(e) && 0 <= WriteLevel(e)
    ensures 1024 * ReadLevel(e) <= |t.data| && 1024 * WriteLevel(e) <= |t.data|
    ensures FillLevel(e) > 0 ==> Busy(e)
  {}

  // ---------- ring arithmetic ----------

  lemma NextRingOfs(k: nat)
    ensures RingOfs(k) + 1024 <= 4096
    ensures RingOfs(k + 1) == if RingOfs(k) + 1024 >= 4096 then 0 else RingOfs(k) + 1024
  {}

  lemma SlotByte(t: Transfer, k: nat, j: nat)
    requires j < 1024
    ensures Slot(t, k) + j == Cell(t, 1024 * k + j)
  {
    var q, r := k / 4, k % 4;
    assert 1024 * k + j == 4096 * q + (1024 * r + j);
    InPage(q, 1024 * r + j);
  }

  lemma InPage(q: nat, m: nat)
    requires m < 4096
    ensures (4096 * q + m) % 4096 == m
  {}

  lemma SameCell(t: Transfer, b: nat, c: nat)
    requires b <= c < b + 4096 && Cell(t, b) == Cell(t, c)
    ensures b == c
  {}

  // ---------- every engine action keeps the pipeline ----------

  /** The master at work moves stream byte Moved between the right addresses. */
  lemma AtWork(t: Transfer, submitted: seq<Descriptor>, m: Master)
    requires Descriptors(t, submitted) && MasterOk(t, m, |submitted|) && m.done < m.popped
    ensures submitted[m.done].len == 1024
    ensures m.ofs < 1024 ==> Moved(t, m) < |t.data|
    ensures m.ofs < 1024 ==> submitted[m.done].src + m.ofs == SourceOf(t, Moved(t, m))
    ensures m.ofs < 1024 ==> submitted[m.done].dst + m.ofs == TargetOf(t, Moved(t, m))
  {
    var k := m.done - t.first;
    assert submitted[m.done] == BlockDescriptor(t, k);
    assert 1024 * (k + 1) <= |t.data|;
    if m.ofs < 1024 { SlotByte(t, k, m.ofs); }
  }

  lemma MasterSteps(t: Transfer, m: Master, n: nat)
    requires MasterOk(t, m, n)
    ensures CanPop(m, n) ==> MasterOk(t, Pop(m), n) && Moved(t, Pop(m)) == Moved(t, m)
                             && MasterWork(Pop(m), n) == MasterWork(m, n) - 1
    ensures Working(m, n) && m.ofs < 1024 ==>
              MasterOk(t, Advance(m), n) && Moved(t, Advance(m)) == Moved(t, m) + 1
              && MasterWork(Advance(m), n) == MasterWork(m, n) - 1
    ensures Working(m, n) && m.ofs == 1024 ==>
              MasterOk(t, Finish(m), n) && Moved(t, Finish(m)) == Moved(t, m)
              && MasterWork(Finish(m), n) == MasterWork(m, n) - 1
  {}

  lemma TakeByte(t: Transfer, bus: seq<byte>, fifo: seq<byte>, r: nat, w: nat)
    requires Geometry(t) && |bus| == |t.bus0| && Memory(t, bus, fifo, r, w)
    requires r < |t.data| && (t.toRam ==> r < 1024 * t.staged)
    ensures SourceOf(t, r) < |bus| && Memory(t, bus, fifo + [bus[SourceOf(t, r)]], r + 1, w)
  {
    if !t.toRam { assert !InRing(t, t.ram + r); }
    assert bus[SourceOf(t, r)] == t.data[r];
    assert fifo + [t.data[r]] == t.data[w..r + 1];
  }

  lemma PutByte(t: Transfer, bus: seq<byte>, fifo: seq<byte>, r: nat, w: nat)
    requires Geometry(t) && |bus| == |t.bus0| && Memory(t, bus, fifo, r, w) && fifo != []
    ensures TargetOf(t, w) < |bus| && Memory(t, bus[TargetOf(t, w) := fifo[0]], fifo[1..], r, w + 1)
  {
    assert fifo[0] == t.data[w];
    assert fifo[1..] == t.data[w + 1..r];
    if t.toRam {
      StoreInRam(t, bus, w);
    } else {
      StoreInRing(t, bus, w);
    }
  }

  lemma StoreInRam(t: Transfer, bus: seq<byte>, w: nat)
    requires Geometry(t) && |bus| == |t.bus0| && w < |t.data| && Outside(t, bus, w)
    ensures Outside(t, bus[t.ram + w := t.data[w]], w + 1)
    ensures forall b: nat :: bus[t.ram + w := t.data[w]][Cell(t, b)] == bus[Cell(t, b)]
  {}

  lemma StoreInRing(t: Transfer, bus: seq<byte>, w: nat)
    requires Geometry(t) && |bus| == |t.bus0| && w < |t.data| && Outside(t, bus, 0)
    requires RingHolds(t, bus, if w < 4096 then 0 else w - 4096, w)
    ensures var bus' := bus[Cell(t, w) := t.data[w]];
            Outside(t, bus', 0) && RingHolds(t, bus', if w + 1 < 4096 then 0 else w + 1 - 4096, w + 1)
  {
    var bus' := bus[Cell(t, w) := t.data[w]];
    forall b: nat | (if w + 1 < 4096 then 0 else w + 1 - 4096) <= b < w + 1
      ensures bus'[Cell(t, b)] == t.data[b]
    {
      if Cell(t, b) == Cell(t, w) { SameCell(t, b, w); }
    }
  }

  lemma ReadByteKeeps(t: Transfer, e: Engine)
    requires Pipeline(t, e) && Enabled(e, ReadByte)
    ensures Pipeline(t, Do(e, ReadByte))
  {
    hide Memory, Geometry, Descriptors, SourceOf, TargetOf;
    AtWork(t, e.submitted, e.reader);
    MasterSteps(t, e.reader, |e.submitted|);
    assert t.toRam ==> Moved(t, e.reader) < 1024 * t.staged;
    TakeByte(t, e.bus, e.fifo, Moved(t, e.reader), Moved(t, e.writer));
    assert Moved(t, Do(e, ReadByte).reader) == Moved(t, e.reader) + 1;
  }

  lemma WriteByteKeeps(t: Transfer, e: Engine)
    requires Pipeline(t, e) && Enabled(e, WriteByte)
    ensures Pipeline(t, Do(e, WriteByte))
  {
    hide Memory, Geometry, Descriptors, SourceOf, TargetOf;
    AtWork(t, e.submitted, e.writer);
    MasterSteps(t, e.writer, |e.submitted|);
    PutByte(t, e.bus, e.fifo, Moved(t, e.reader), Moved(t, e.writer));
  }

  lemma PopOrFinishKeeps(t: Transfer, e: Engine, a: Action)
    requires Pipeline(t, e) && Enabled(e, a) && !a.ReadByte? && !a.WriteByte?
    ensures Pipeline(t, Do(e, a))
  {
    var m := if a.PopRead? || a.FinishRead? then e.reader else e.writer;
    MasterSteps(t, m, |e.submitted|);
    if a.FinishRead? || a.FinishWrite? { AtWork(t, e.submitted, m); }
  }

  lemma StepMovesOn(t: Transfer, e: Engine, a: Action)
    requires Descriptors(t, e.submitted) && Enabled(e, a)
    requires MasterOk(t, e.reader, |e.submitted|) && MasterOk(t, e.writer, |e.submitted|)
    ensures Later(e, Do(e, a)) && Work(Do(e, a)) == Work(e) - 1
  {
    match a
    case FinishRead => AtWork(t, e.submitted, e.reader);
    case FinishWrite => AtWork(t, e.submitted, e.writer);
    case _ =>
  }

  lemma StepKeeps(t: Transfer, e: Engine, a: Action)
    requires Pipeline(t, e) && Enabled(e, a)
    ensures Pipeline(t, Do(e, a))
    ensures Later(e, Do(e, a)) && Work(Do(e, a)) == Work(e) - 1
  {
    StepMovesOn(t, e, a);
    match a
    case ReadByte => ReadByteKeeps(t, e);
    case WriteByte => WriteByteKeeps(t, e);
    case _ => PopOrFinishKeeps(t, e, a);
  }

  /** The pipeline invariant holds after every run of the engine, and the run
      is as long as the work it took off. */
  lemma {:induction false} RunKeeps(t: Transfer, e: Engine, acts: seq<Action>, e': Engine)
    requires Pipeline(t, e) && Runs(e, acts, e')
    ensures Pipeline(t, e') && Later(e, e')
    ensures |acts| == Work(e) - Work(e')
    decreases |acts|
  {
    hide Pipeline, Do, Enabled, Work;
    if acts != [] {
      StepKeeps(t, e, acts[0]);
      RunKeeps(t, Do(e, acts[0]), acts[1..], e');
    }
  }

  /** Some run of the engine leads from e to e'. */
  ghost predicate After(e: Engine, e': Engine) {
    exists acts :: Runs(e, acts, e')
  }

  lemma AfterKeeps(t: Transfer, e: Engine, e': Engine)
    requires Pipeline(t, e) && After(e, e')
    ensures Pipeline(t, e') && Later(e, e')
  {
    var acts :| Runs(e, acts, e');
    RunKeeps(t, e, acts, e');
  }

  lemma {:induction false} RunsSnoc(e: Engine, acts: seq<Action>, e': Engine, a: Action)
    requires Runs(e, acts, e') && Enabled(e', a)
    ensures Runs(e, acts + [a], Do(e', a))
    decreases |acts|
  {
    if acts != [] {
      RunsSnoc(Do(e, acts[0]), acts[1..], e', a);
      assert (acts + [a])[1..] == acts[1..] + [a];
    }
  }

  lemma {:induction false} RunsAppend(e: Engine, a: seq<Action>, m: Engine, b: seq<Action>, e': Engine)
    requires Runs(e, a, m) && Runs(m, b, e')
    ensures Runs(e, a + b, e')
    decreases |a|
  {
    if a == [] {
      assert a + b == b;
    } else {
      assert (a + b)[1..] == a[1..] + b;
      RunsAppend(Do(e, a[0]), a[1..], m, b, e');
    }
  }

  lemma AfterTrans(e: Engine, m: Engine, e': Engine)
    requires After(e, m) && After(m, e')
    ensures After(e, e')
  {
    var a :| Runs(e, a, m);
    var b :| Runs(m, b, e');
    RunsAppend(e, a, m, b, e');
  }

  lemma AfterSelf(e: Engine)
    ensures After(e, e)
  {
    assert Runs(e, [], e);
  }

  lemma AfterOne(e: Engine, a: Action)
    requires Enabled(e, a)
    ensures After(e, Do(e, a))
  {
    assert Runs(Do(e, a), [a][1..], Do(e, a));
    assert Runs(e, [a], Do(e, a));
  }

  /** No run changes the size of memory or the descriptors submitted. */
  lemma {:induction false} RunsFrame(e: Engine, acts: seq<Action>, e': Engine)
    requires Runs(e, acts, e')
    ensures |e'.bus| == |e.bus| && e'.submitted == e.submitted
    decreases |acts|
  {
    if acts != [] { RunsFrame(Do(e, acts[0]), acts[1..], e'); }
  }

  /** An action the engine could take next. */
  function NextAction(e: Engine): Action {
    if e.reader.done < |e.submitted| then
      if e.reader.popped == e.reader.done then PopRead
      else if e.reader.ofs < 1024 then ReadByte else FinishRead
    else
      if e.writer.popped == e.writer.done then PopWrite
      else if e.writer.ofs < 1024 then WriteByte else FinishWrite
  }

  /** While anything is outstanding the engine can act, so it cannot get stuck. */
  lemma Progress(t: Transfer, e: Engine)
    requires Pipeline(t, e) && Busy(e)
    ensures Enabled(e, NextAction(e))
  {
    if e.reader.done < e.reader.popped { AtWork(t, e.submitted, e.reader); }
    if e.writer.done < e.writer.popped { AtWork(t, e.submitted, e.writer); }
    if e.reader.done == |e.submitted| && e.writer.done < e.writer.popped && e.writer.ofs < 1024 {
      assert Moved(t, e.writer) < Moved(t, e.reader);
    }
  }
}
