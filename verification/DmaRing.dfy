/**
  What the CPU may do to the ring between engine actions, and when: filling a
  slot, submitting a descriptor, taking a block out, and reading off the
  outcome once the engine is idle.  The guards are the ones the driver polls:
  the fill level and the busy bit.
 */
module DmaRing {
  import opened Bytes
  import opened MsgDma

  function Splice(bus: seq<byte>, a: nat, block: seq<byte>): seq<byte>
    requires a + |block| <= |bus|
  {
    bus[..a] + block + bus[a + |block|..]
  }

  /** Block number i of the stream. */
  function Block(data: seq<byte>, i: nat): seq<byte>
    requires 1024 * (i + 1) <= |data|
  {
    data[1024 * i..1024 * i + 1024]
  }

  /** Blocks submitted so far in this call. */
  function Blocks(t: Transfer, e: Engine): int {
    |e.submitted| - t.first
  }

  lemma QuietLater(e: Engine, e': Engine, a: nat)
    requires Quiet(e, a) && Later(e, e')
    ensures Quiet(e', a)
  {
    forall i: nat | Unfinished(e', i) ensures !Touches(e'.submitted[i], a) {
      assert Unfinished(e, i);
    }
  }

  lemma SlotsTouch(t: Transfer, i: nat, k: nat)
    requires Geometry(t) && 1024 * (i + 1) <= |t.data|
    ensures Touches(BlockDescriptor(t, i), Slot(t, k)) <==> i % 4 == k % 4
  {}

  /** Both masters are done with block i of this call. */
  predicate Finished(t: Transfer, e: Engine, i: int) {
    t.first + i < e.reader.done && t.first + i < e.writer.done
  }

  /** A slot is quiet exactly when every submitted block that uses it is finished. */
  lemma SlotQuiet(t: Transfer, e: Engine, k: nat)
    requires Pipeline(t, e)
    ensures Quiet(e, Slot(t, k)) <==>
            forall i: nat | i < Blocks(t, e) && i % 4 == k % 4 :: Finished(t, e, i)
  {
    if forall i: nat | i < Blocks(t, e) && i % 4 == k % 4 :: Finished(t, e, i) {
      forall i: nat | Unfinished(e, i) ensures !Touches(e.submitted[i], Slot(t, k)) {
        assert t.first <= i && e.submitted[i] == BlockDescriptor(t, i - t.first);
        assert !Finished(t, e, i - t.first);
        SlotsTouch(t, i - t.first, k);
      }
    } else {
      var i: nat :| i < Blocks(t, e) && i % 4 == k % 4 && !Finished(t, e, i);
      assert e.submitted[t.first + i] == BlockDescriptor(t, i);
      SlotsTouch(t, i, k);
      assert Unfinished(e, t.first + i);
    }
  }

  /** The slot of the next block is quiet exactly when the block four back is
      finished, and a fill level of at most two guarantees that. */
  lemma NextSlotQuiet(t: Transfer, e: Engine)
    requires Pipeline(t, e)
    ensures var k := Blocks(t, e); Quiet(e, Slot(t, k)) <==> k < 4 || Finished(t, e, k - 4)
    ensures FillLevel(e) <= 2 ==> Quiet(e, Slot(t, Blocks(t, e)))
  {
    var k := Blocks(t, e);
    SlotQuiet(t, e, k);
    forall i: nat | i < k && i % 4 == k % 4 ensures i <= k - 4 { SameSlot(i, k); }
    if k >= 4 && Finished(t, e, k - 4) {
      forall i: nat | i < k && i % 4 == k % 4 ensures Finished(t, e, i) {}
    } else if k >= 4 {
      assert (k - 4) % 4 == k % 4;
    }
  }

  lemma SameSlot(i: nat, k: nat)
    requires i < k && i % 4 == k % 4
    ensures i <= k - 4
  {}

  /** The guards of the read loop: with one more block submitted behind block u
      the fill level is 0, or block u is the last one and the engine is idle. */
  predicate OldestGuard(t: Transfer, e: Engine, u: nat) {
    (Blocks(t, e) == u + 2 && FillLevel(e) <= 0) || (Blocks(t, e) == u + 1 && !Busy(e))
  }

  /** Under that guard block u is complete in its slot, and its slot is quiet. */
  lemma OldestBlockReady(t: Transfer, e: Engine, u: nat)
    requires Pipeline(t, e) && !t.toRam && 1024 * (u + 1) <= |t.data| && OldestGuard(t, e, u)
    ensures Finished(t, e, u) && Quiet(e, Slot(t, u)) && Slot(t, u) + 1024 <= |e.bus|
    ensures e.bus[Slot(t, u)..Slot(t, u) + 1024] == Block(t.data, u)
  {
    OldestWritten(t, e, u);
    OldestIntact(t, e, u);
    SlotQuiet(t, e, u);
    hide Pipeline;
    forall i: nat | i < Blocks(t, e) && i % 4 == u % 4 ensures Finished(t, e, i) {}
    SlotSlice(t, e.bus, u);
  }

  lemma OldestWritten(t: Transfer, e: Engine, u: nat)
    requires Pipeline(t, e) && OldestGuard(t, e, u)
    ensures Finished(t, e, u) && 1024 * (u + 1) <= Moved(t, e.writer) <= 1024 * u + 4096
  {}

  lemma OldestIntact(t: Transfer, e: Engine, u: nat)
    requires Pipeline(t, e) && !t.toRam && 1024 * (u + 1) <= |t.data|
    requires 1024 * (u + 1) <= Moved(t, e.writer) <= 1024 * u + 4096
    ensures Geometry(t) && |e.bus| == |t.bus0| && RingHolds(t, e.bus, 1024 * u, 1024 * u + 1024)
  {}

  lemma SlotSlice(t: Transfer, bus: seq<byte>, u: nat)
    requires Geometry(t) && |bus| == |t.bus0| && 1024 * (u + 1) <= |t.data|
    requires RingHolds(t, bus, 1024 * u, 1024 * u + 1024)
    ensures Slot(t, u) + 1024 <= |bus| && bus[Slot(t, u)..Slot(t, u) + 1024] == Block(t.data, u)
  {
    var slice, block := bus[Slot(t, u)..Slot(t, u) + 1024], Block(t.data, u);
    forall j: nat | j < 1024 ensures slice[j] == block[j] {
      SlotByte(t, u, j);
    }
  }

  /** Placing the next block in a quiet slot. */
  lemma StageKeeps(t: Transfer, e: Engine)
    requires Pipeline(t, e) && t.toRam && t.staged == Blocks(t, e)
    requires 1024 * (t.staged + 1) <= |t.data| && Quiet(e, Slot(t, t.staged))
    ensures Slot(t, t.staged) + 1024 <= |e.bus|
    ensures var bus' := Splice(e.bus, Slot(t, t.staged), Block(t.data, t.staged));
            Pipeline(t.(staged := t.staged + 1), e.(bus := bus'))
  {
    var t' := t.(staged := t.staged + 1);
    StageRing(t, e);
    StageOutside(t, e.bus, t.staged, Moved(t, e.writer));
    SameDescriptors(t, t', e.submitted);
  }

  lemma StageRing(t: Transfer, e: Engine)
    requires Pipeline(t, e) && t.toRam && t.staged == Blocks(t, e)
    requires 1024 * (t.staged + 1) <= |t.data| && Quiet(e, Slot(t, t.staged))
    ensures Slot(t, t.staged) + 1024 <= |e.bus|
    ensures var bus' := Splice(e.bus, Slot(t, t.staged), Block(t.data, t.staged));
            RingHolds(t.(staged := t.staged + 1), bus', Moved(t, e.reader), 1024 * (t.staged + 1))
  {
    var k, t' := t.staged, t.(staged := t.staged + 1);
    var bus' := Splice(e.bus, Slot(t, k), Block(t.data, k));
    NextSlotQuiet(t, e);
    forall b: nat | Moved(t, e.reader) <= b < 1024 * (k + 1) ensures bus'[Cell(t', b)] == t.data[b] {
      assert Cell(t, b) == Cell(t', b);
      StagedByte(t, e, b);
    }
  }

  lemma StageOutside(t: Transfer, bus: seq<byte>, k: nat, n: nat)
    requires Geometry(t) && |bus| == |t.bus0| && n <= |t.data| && 1024 * (k + 1) <= |t.data|
    requires Outside(t, bus, n)
    ensures Slot(t, k) + 1024 <= |bus|
    ensures Outside(t.(staged := t.staged + 1), Splice(bus, Slot(t, k), Block(t.data, k)), n)
  {}

  lemma SameDescriptors(t: Transfer, t': Transfer, submitted: seq<Descriptor>)
    requires Descriptors(t, submitted) && t' == t.(staged := t'.staged)
    ensures Descriptors(t', submitted)
  {
    forall i: nat | t.first <= i < |submitted| ensures submitted[i] == BlockDescriptor(t', i - t.first) {
      assert submitted[i] == BlockDescriptor(t, i - t.first);
    }
  }

  lemma StagedByte(t: Transfer, e: Engine, b: nat)
    requires Pipeline(t, e) && t.toRam && t.staged == Blocks(t, e)
    requires 1024 * (t.staged + 1) <= |t.data| && Moved(t, e.reader) <= b < 1024 * (t.staged + 1)
    requires t.staged < 4 || Finished(t, e, t.staged - 4)
    ensures Slot(t, t.staged) + 1024 <= |e.bus|
    ensures Splice(e.bus, Slot(t, t.staged), Block(t.data, t.staged))[Cell(t, b)] == t.data[b]
  {
    var k := t.staged;
    if 1024 * k <= b {
      SlotByte(t, k, b - 1024 * k);
      hide Pipeline;
    } else {
      assert 1024 * k - 4096 < b + 1024;
      assert e.bus[Cell(t, b)] == t.data[b];
      hide Pipeline;
      OtherSlotByte(t, b, k);
    }
  }

  /** A byte of one of the three blocks before block k lies outside its slot. */
  lemma OtherSlotByte(t: Transfer, b: nat, k: nat)
    requires 1024 * k - 4096 < b + 1024 && b < 1024 * k && 1024 * (k - 3) <= b
    ensures Cell(t, b) < Slot(t, k) || Slot(t, k) + 1024 <= Cell(t, b)
  {
    var q := b / 1024;
    assert q < k < q + 4;
    SlotByte(t, q, b % 1024);
    OtherSlot(q, k);
  }

  lemma OtherSlot(q: nat, k: nat)
    requires q < k < q + 4
    ensures RingOfs(q) + 1024 <= RingOfs(k) || RingOfs(k) + 1024 <= RingOfs(q)
  {}

  /** Submitting the next block's descriptor; in a write it must be staged. */
  lemma SubmitKeeps(t: Transfer, e: Engine)
    requires Pipeline(t, e) && 1024 * (Blocks(t, e) + 1) <= |t.data|
    requires t.toRam ==> t.staged == Blocks(t, e) + 1
    ensures Pipeline(t, Submit(e, BlockDescriptor(t, Blocks(t, e))))
  {}

  /** An idle engine satisfies the pipeline invariant of any call about to start. */
  lemma Start(t: Transfer, e: Engine)
    requires Geometry(t) && Idle(e) && t.first == |e.submitted| && t.bus0 == e.bus && t.staged == 0
    requires !t.toRam ==> t.data == e.bus[t.ram..t.ram + |t.data|]
    ensures Pipeline(t, e)
  {}

  /** At any moment of a write, each byte of memory outside the ring is old or
      the user's; a read changes nothing there. */
  lemma Midway(t: Transfer, e: Engine)
    requires Pipeline(t, e)
    ensures |e.bus| == |t.bus0|
    ensures forall a: nat {:trigger e.bus[a]} | a < |e.bus| && !InRing(t, a) ::
              e.bus[a] == t.bus0[a]
              || (t.toRam && t.ram <= a < t.ram + |t.data| && e.bus[a] == t.data[a - t.ram])
  {}

  /** When everything is submitted and the engine is no longer busy, it is idle,
      and memory outside the ring is exactly what the call promises. */
  lemma Complete(t: Transfer, e: Engine)
    requires Pipeline(t, e) && !Busy(e) && |t.data| == 1024 * Blocks(t, e)
    ensures Idle(e) && Outside(t, e.bus, if t.toRam then |t.data| else 0)
  {}
}
