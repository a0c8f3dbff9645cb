/**
  The pipelined DMA copy driver: two character devices move user data in 1 KiB
  blocks through a four-slot page to or from one 1 MiB buffer, while the engine
  drains descriptors concurrently.  Any number of engine actions may happen
  between any two driver actions (Turn).

  The streaming device keeps its page in cached memory: page is the processor's
  view, and mapping or unmapping a slot copies between it and the bus.  The
  coherent device's page and the 1 MiB buffer are plain bus memory.
 */
module DmaDriver {
  import opened Bytes
  import opened Counts
  import opened MsgDma
  import opened DmaRing
  import opened DmaAbandon
  import opened DmaAbandonRead
  import opened DmaSpec

  class Device {
    const kmallocBus: nat
    const coherentBus: nat
    const ramBus: nat
    const page: array<byte>
    var hw: Engine
    ghost var live: set<nat>     // handles of streaming mappings not yet unmapped
    ghost var maps: nat          // streaming mappings ever made
    ghost var unmaps: nat        // and unmapped

    ghost predicate Valid()
      reads this
    {
      && page.Length == 4096
      && 0 < kmallocBus
      && kmallocBus + 4096 <= |hw.bus| && coherentBus + 4096 <= |hw.bus|
      && ramBus + MAX_OFFSET <= |hw.bus| <= 0x1_0000_0000
      && !Overlaps(kmallocBus, 4096, ramBus, MAX_OFFSET)
      && !Overlaps(coherentBus, 4096, ramBus, MAX_OFFSET)
      && !Overlaps(kmallocBus, 4096, coherentBus, 4096)
    }

    /** Between calls that return normally nothing is in flight or mapped. */
    ghost predicate Ready()
      reads this
    {
      Valid() && Idle(hw) && live == {}
    }

    /** The 1 MiB buffer. */
    ghost function Ram(): (ram: seq<byte>)
      requires Valid()
      reads this
      ensures |ram| == MAX_OFFSET
    {
      hw.bus[ramBus..ramBus + MAX_OFFSET]
    }

    /** A freshly probed device: the engine has reported that it is idle. */
    constructor (bus: seq<byte>, kmallocBus: nat, coherentBus: nat, ramBus: nat)
      requires 0 < kmallocBus && kmallocBus + 4096 <= |bus| && coherentBus + 4096 <= |bus|
      requires ramBus + MAX_OFFSET <= |bus| <= 0x1_0000_0000
      requires !Overlaps(kmallocBus, 4096, ramBus, MAX_OFFSET) && !Overlaps(coherentBus, 4096, ramBus, MAX_OFFSET)
      requires !Overlaps(kmallocBus, 4096, coherentBus, 4096)
      ensures Ready() && hw.bus == bus && this.ramBus == ramBus
    {
      this.kmallocBus, this.coherentBus, this.ramBus := kmallocBus, coherentBus, ramBus;
      page := new byte[4096];
      hw := Engine(bus, [], Master(0, 0, 0), Master(0, 0, 0), []);
      live, maps, unmaps := {}, 0, 0;
    }

    // ---------- the engine runs; the driver polls and sleeps ----------

    /** Any number of engine actions. */
    method Turn()
      modifies this`hw
      ensures After(old(hw), hw) && |hw.bus| == |old(hw).bus| && hw.submitted == old(hw).submitted
    {
      ghost var acts := [];
      var budget: nat := *;
      while budget > 0
        invariant Runs(old(hw), acts, hw)
      {
        var a: Action := *;
        if Enabled(hw, a) {
          RunsSnoc(old(hw), acts, hw, a);
          hw, acts := Do(hw, a), acts + [a];
        }
        budget := budget - 1;
      }
      RunsFrame(old(hw), acts, hw);
    }

    method TurnIn(ghost t: Transfer)
      requires Pipeline(t, hw)
      modifies this`hw
      ensures Pipeline(t, hw) && Later(old(hw), hw) && After(old(hw), hw)
    {
      Turn();
      AfterKeeps(t, old(hw), hw);
    }

    /** get_dma_fill_level: the larger half of one register read. */
    method GetFillLevel(ghost t: Transfer) returns (level: nat)
      requires Pipeline(t, hw) && |t.data| <= MAX_OFFSET
      modifies this`hw
      ensures Pipeline(t, hw) && Later(old(hw), hw) && After(old(hw), hw)
      ensures level == FillLevel(hw)
    {
      hide Pipeline, After;
      TurnIn(t);
      Basics(t, hw);
      var register := WriteLevel(hw) * 0x1_0000 + ReadLevel(hw);
      RegisterHalves(WriteLevel(hw), ReadLevel(hw));
      hide Later;
      var readLevel, writeLevel := register % 0x1_0000, register / 0x1_0000;
      level := if writeLevel > readLevel then writeLevel else readLevel;
    }

    method GetBusy(ghost t: Transfer) returns (busy: bool)
      requires Pipeline(t, hw)
      modifies this`hw
      ensures Pipeline(t, hw) && Later(old(hw), hw) && After(old(hw), hw)
      ensures busy == Busy(hw)
    {
      hide Pipeline, After;
      TurnIn(t);
      busy := Busy(hw);
    }

    /** While the driver sleeps the engine takes at least one action. */
    method Sleep(ghost t: Transfer)
      requires Pipeline(t, hw) && Busy(hw)
      modifies this`hw
      ensures Pipeline(t, hw) && Later(old(hw), hw) && Work(hw) < old(Work(hw)) && After(old(hw), hw)
    {
      hide Pipeline, After;
      Progress(t, hw);
      var a: Action := *;
      if !Enabled(hw, a) { a := NextAction(hw); }
      StepKeeps(t, hw, a);
      AfterOne(hw, a);
      hw := Do(hw, a);
      ghost var mid := hw;
      TurnIn(t);
      AfterTrans(old(hw), mid, hw);
    }

    /** Waits until the fill level is at most limit; a signal ends the wait. */
    method WaitFill(limit: nat, ghost t: Transfer) returns (ok: bool)
      requires Pipeline(t, hw) && |t.data| <= MAX_OFFSET
      modifies this`hw
      ensures Pipeline(t, hw) && Later(old(hw), hw) && After(old(hw), hw)
      ensures ok ==> FillLevel(hw) <= limit
    {
      hide Pipeline, After, Work, FillLevel;
      var level := GetFillLevel(t);
      while level > limit
        invariant Pipeline(t, hw) && Later(old(hw), hw) && After(old(hw), hw) && level == FillLevel(hw)
        decreases Work(hw)
      {
        Basics(t, hw);
        var signalled: bool := *;
        if signalled { return false; }
        ghost var mid := hw;
        level := SleepAndPoll(t);
        AfterTrans(old(hw), mid, hw);
        Basics(t, hw);
      }
      ok := true;
    }

    /** A round of the wait for room; old states are those at its start. */
    method SleepAndPoll(ghost t: Transfer) returns (level: nat)
      requires Pipeline(t, hw) && Busy(hw) && |t.data| <= MAX_OFFSET
      modifies this`hw
      ensures Pipeline(t, hw) && Later(old(hw), hw) && After(old(hw), hw) && Work(hw) < old(Work(hw))
      ensures level == FillLevel(hw)
    {
      hide Pipeline, After, Work, FillLevel;
      Sleep(t);
      ghost var mid := hw;
      level := GetFillLevel(t);
      AfterTrans(old(hw), mid, hw);
    }

    method SleepAndAsk(ghost t: Transfer) returns (busy: bool)
      requires Pipeline(t, hw) && Busy(hw)
      modifies this`hw
      ensures Pipeline(t, hw) && Later(old(hw), hw) && After(old(hw), hw) && Work(hw) < old(Work(hw))
      ensures busy == Busy(hw)
    {
      hide Pipeline, After, Work;
      Sleep(t);
      ghost var mid := hw;
      busy := GetBusy(t);
      AfterTrans(old(hw), mid, hw);
    }

    method WaitIdle(ghost t: Transfer) returns (ok: bool)
      requires Pipeline(t, hw)
      modifies this`hw
      ensures Pipeline(t, hw) && Later(old(hw), hw) && After(old(hw), hw)
      ensures ok ==> !Busy(hw)
    {
      hide Pipeline, After, Work;
      var busy := GetBusy(t);
      while busy
        invariant Pipeline(t, hw) && Later(old(hw), hw) && After(old(hw), hw) && busy == Busy(hw)
        decreases Work(hw)
      {
        var signalled: bool := *;
        if signalled { return false; }
        Basics(t, hw);
        ghost var mid := hw;
        busy := SleepAndAsk(t);
        AfterTrans(old(hw), mid, hw);
        Basics(t, hw);
      }
      ok := true;
    }

    // ---------- descriptors, mappings and slots ----------

    /** The four register writes that hand the engine one descriptor. */
    method Push(d: Descriptor) returns (ghost mid: Engine)
      modifies this`hw
      ensures After(old(hw), mid) && hw == Submit(mid, d) && |hw.bus| == |old(hw).bus|
    {
      Turn();
      mid := hw;
      hw := Submit(hw, d);
    }

    method PushBlock(d: Descriptor, ghost t: Transfer) returns (ghost mid: Engine)
      requires Pipeline(t, hw) && 1024 * (Blocks(t, hw) + 1) <= |t.data|
      requires t.toRam ==> t.staged == Blocks(t, hw) + 1
      requires d == BlockDescriptor(t, Blocks(t, hw))
      modifies this`hw
      ensures Pipeline(t, hw) && |hw.bus| == |old(hw).bus| && Blocks(t, hw) == old(Blocks(t, hw)) + 1
      ensures Ahead(old(hw).reader, hw.reader) && Ahead(old(hw).writer, hw.writer)
      ensures After(old(hw), mid) && hw == Submit(mid, d)
    {
      hide Pipeline;
      mid := Push(d);
      AfterKeeps(t, old(hw), mid);
      SubmitKeeps(t, mid);
    }

    /** copy_from_user into the streaming page. */
    method CopyToPage(ofs: nat, block: seq<byte>) returns (fault: bool)
      requires Valid() && ofs + 1024 <= 4096 && |block| == 1024
      modifies page
      ensures !fault ==> page[ofs..ofs + 1024] == block
    {
      fault := *;
      var n: nat := *;
      if !fault || n > 1024 { n := 1024; }
      forall j | 0 <= j < n { page[ofs + j] := block[j]; }
    }

    /** dma_map_single towards the device: the slot must be quiet and unmapped.
        The processor's bytes become visible on the bus. */
    method MapToDevice(ofs: nat, ghost t: Transfer) returns (h: nat, failed: bool, ghost a: Engine)
      requires Valid() && ofs + 1024 <= 4096 && kmallocBus + ofs !in live
      requires Pipeline(t, hw) && t.toRam && t.staged == Blocks(t, hw)
      requires 1024 * (t.staged + 1) <= |t.data| && page[ofs..ofs + 1024] == Block(t.data, t.staged)
      requires Slot(t, t.staged) == kmallocBus + ofs && Quiet(hw, kmallocBus + ofs)
      modifies this`hw, this`live, this`maps
      ensures |hw.bus| == |old(hw).bus| && hw.submitted == old(hw).submitted
      ensures After(old(hw), a)
      ensures failed ==> Pipeline(t, hw) && hw == a
      ensures !failed ==> Pipeline(t.(staged := t.staged + 1), hw) && h == kmallocBus + ofs
                          && live == old(live) + {h} && maps == old(maps) + 1
                          && Slot(t, t.staged) + 1024 <= |a.bus| && hw == Staged(t, t.staged, a)
    {
      hide Pipeline, After;
      TurnIn(t);
      a := hw;
      QuietLater(old(hw), hw, kmallocBus + ofs);
      h, failed := kmallocBus + ofs, *;
      if failed { return; }
      StageKeeps(t, hw);
      hw := hw.(bus := Splice(hw.bus, h, page[ofs..ofs + 1024]));
      live, maps := live + {h}, maps + 1;
    }

    /** dma_map_single from the device. */
    method MapFromDevice(ofs: nat) returns (h: nat, failed: bool)
      requires Valid() && ofs + 1024 <= 4096 && kmallocBus + ofs !in live
      requires Quiet(hw, kmallocBus + ofs)
      modifies this`hw, this`live, this`maps
      ensures After(old(hw), hw) && |hw.bus| == |old(hw).bus| && hw.submitted == old(hw).submitted
      ensures !failed ==> h == kmallocBus + ofs && live == old(live) + {h} && maps == old(maps) + 1
    {
      Turn();
      h, failed := kmallocBus + ofs, *;
      if failed { return; }
      live, maps := live + {h}, maps + 1;
    }

    /** dma_unmap_single after a transfer to the device: only a live mapping,
        and only when no unfinished descriptor uses it. */
    method UnmapToDevice(h: nat, ghost t: Transfer)
      requires h in live && Pipeline(t, hw) && Quiet(hw, h)
      modifies this`hw, this`live, this`unmaps
      ensures Pipeline(t, hw) && Later(old(hw), hw) && After(old(hw), hw)
      ensures live == old(live) - {h} && unmaps == old(unmaps) + 1
    {
      TurnIn(t);
      live, unmaps := live - {h}, unmaps + 1;
    }

    /** dma_unmap_single after a transfer from the device: the bytes on the bus
        become visible to the processor. */
    method UnmapFromDevice(h: nat, ghost t: Transfer, ghost u: nat)
      requires Valid() && kmallocBus <= h <= kmallocBus + 3072 && h in live
      requires Pipeline(t, hw) && !t.toRam && 1024 * (u + 1) <= |t.data| && OldestGuard(t, hw, u)
      requires h == Slot(t, u) && Quiet(hw, h)
      modifies this`hw, this`live, this`unmaps, page
      ensures Pipeline(t, hw) && Later(old(hw), hw) && After(old(hw), hw)
      ensures live == old(live) - {h} && unmaps == old(unmaps) + 1
      ensures page[h - kmallocBus..h - kmallocBus + 1024] == Block(t.data, u)
    {
      hide Pipeline, After;
      TurnIn(t);
      OldestBlockReady(t, hw, u);
      ghost var slot := hw.bus[h..h + 1024];
      var ofs := h - kmallocBus;
      forall j | 0 <= j < 1024 { page[ofs + j] := hw.bus[h + j]; }
      assert page[ofs..ofs + 1024] == slot;
      live, unmaps := live - {h}, unmaps + 1;
    }

    /** copy_from_user into the coherent page. */
    method CopyToCoherent(ofs: nat, block: seq<byte>, ghost t: Transfer) returns (fault: bool, ghost a: Engine)
      requires Valid() && ofs + 1024 <= 4096
      requires Pipeline(t, hw) && t.toRam && t.staged == Blocks(t, hw)
      requires 1024 * (t.staged + 1) <= |t.data| && block == Block(t.data, t.staged)
      requires Slot(t, t.staged) == coherentBus + ofs && Quiet(hw, coherentBus + ofs)
      modifies this`hw
      ensures |hw.bus| == |old(hw).bus| && hw.submitted == old(hw).submitted
      ensures After(old(hw), a)
      ensures fault ==> Pipeline(t, hw) && hw == a
      ensures !fault ==> Pipeline(t.(staged := t.staged + 1), hw)
                         && Slot(t, t.staged) + 1024 <= |a.bus| && hw == Staged(t, t.staged, a)
    {
      hide Pipeline, After;
      TurnIn(t);
      a := hw;
      QuietLater(old(hw), hw, coherentBus + ofs);
      fault := *;
      if fault { return; }
      StageKeeps(t, hw);
      hw := hw.(bus := Splice(hw.bus, coherentBus + ofs, block));
    }

    /** copy_to_user out of the coherent page. */
    method CopyFromCoherent(ofs: nat, ghost t: Transfer, ghost u: nat) returns (block: seq<byte>, fault: bool)
      requires Valid() && ofs + 1024 <= 4096
      requires Pipeline(t, hw) && !t.toRam && 1024 * (u + 1) <= |t.data| && OldestGuard(t, hw, u)
      requires Slot(t, u) == coherentBus + ofs && Quiet(hw, coherentBus + ofs)
      modifies this`hw
      ensures Pipeline(t, hw) && Later(old(hw), hw) && After(old(hw), hw)
      ensures !fault ==> block == Block(t.data, u)
    {
      hide Pipeline, After;
      TurnIn(t);
      OldestBlockReady(t, hw, u);
      fault := *;
      block := hw.bus[coherentBus + ofs..coherentBus + ofs + 1024];
    }

    // ---------- writes ----------

    /** One round of demo_dma_co_write's loop: wait for room, fill the next slot,
        submit it.  t' is t, possibly with the block staged. */
    method CoWriteRound(ofs: nat, ramPtr: nat, block: seq<byte>, ghost t: Transfer)
      returns (error: Ret, ghost t': Transfer, ghost v: Visit)
      requires Valid() && ofs + 1024 <= 4096 && t.ring == coherentBus && |t.data| <= MAX_OFFSET
      requires Pipeline(t, hw) && t.toRam && t.staged == Blocks(t, hw)
      requires 1024 * (t.staged + 1) <= |t.data| && block == Block(t.data, t.staged)
      requires ofs == RingOfs(t.staged) && ramPtr == t.ram + 1024 * t.staged
      modifies this`hw
      ensures |hw.bus| == |old(hw).bus| && Pipeline(t', hw)
      ensures Broken(error) ==> t' == t && After(old(hw), hw) && hw.submitted == old(hw).submitted
      ensures !Broken(error) ==> t' == t.(staged := t.staged + 1) && t'.staged == Blocks(t', hw)
      ensures !Broken(error) ==> After(old(hw), v.p) && Round(t, t.staged, v, hw)
    {
      hide Pipeline, After, Quiet, Staged, FillLevel;
      t' := t;
      var ok := WaitFill(2, t);
      v := Visit(hw, hw, hw);
      if !ok { return Error(ERESTARTSYS), t, v; }
      NextSlotQuiet(t, hw);
      var fault;
      ghost var a;
      fault, a := CopyToCoherent(ofs, block, t);
      AfterTrans(old(hw), v.p, a);
      if fault { return Error(EFAULT), t, v; }
      t' := t.(staged := t.staged + 1);
      ghost var b := PushBlock(Descriptor(coherentBus + ofs, ramPtr, 1024), t');
      v := Visit(v.p, a, b);
      AfterSelf(hw);
      error := Count(1024);
    }

    /** The loop of demo_dma_co_write. */
    method CoWriteLoop(data: seq<byte>, pos: nat) returns (ret: Ret, ghost t: Transfer)
      requires Ready() && pos + |data| <= MAX_OFFSET && |data| % 1024 == 0
      modifies this`hw
      ensures |hw.bus| == |old(hw).bus|
      ensures Blocks(t, hw) >= 0
      ensures Reached(WriteTransfer(coherentBus, ramBus + pos, data, old(hw), 0), old(hw), Blocks(t, hw), hw)
      ensures t == WriteTransfer(coherentBus, ramBus + pos, data, old(hw), t.staged) && Pipeline(t, hw)
      ensures !Broken(ret) ==> |data| == 1024 * Blocks(t, hw)
    {
      hide Pipeline, RingOfs, History, Round, After;
      FirstRingOfs();
      ret := Count(|data|);
      var tempCount, ramPtr, nextOfs, userPtr := |data|, ramBus + pos, 0, 0;
      t := WriteTransfer(coherentBus, ramBus + pos, data, hw, 0);
      Start(t, hw);
      ghost var t0, past := t, [];
      EmptyHistory(t0, hw);
      while tempCount > 0
        invariant t == WriteTransfer(coherentBus, ramBus + pos, data, old(hw), t.staged)
        invariant Pipeline(t, hw) && |hw.bus| == |old(hw).bus| && Blocks(t, hw) == t.staged
        invariant userPtr == 1024 * t.staged && userPtr + tempCount == |data| && tempCount >= 0
        invariant ramPtr == ramBus + pos + userPtr && nextOfs == RingOfs(t.staged)
        invariant |past| == t.staged && History(t0, old(hw), past, hw)
      {
        NextRingOfs(t.staged);
        ghost var was := hw;
        ghost var v;
        ret, t, v := CoWriteRound(nextOfs, ramPtr, data[userPtr..userPtr + 1024], t);
        past := HistoryGoesOn(t0, old(hw), past, was, v, hw, !Broken(ret));
        if Broken(ret) { return; }
        tempCount, userPtr, ramPtr := tempCount - 1024, userPtr + 1024, ramPtr + 1024;
        nextOfs := nextOfs + 1024;
        if nextOfs >= 4096 { nextOfs := 0; }
      }
    }

    /** demo_dma_co_write past its argument checks. */
    method CoWriteBlocks(data: seq<byte>, pos: nat) returns (ret: Ret)
      requires Ready() && pos + |data| <= MAX_OFFSET && |data| % 1024 == 0
      modifies this`hw
      ensures Valid()
      ensures !Broken(ret) ==> Ready() && ret == Count(|data|)
      ensures !Broken(ret) ==> Ram() == old(Ram())[..pos] + data + old(Ram())[pos + |data|..]
      ensures Broken(ret) ==> PartlyWritten(old(Ram()), Ram(), pos, data)
      ensures Broken(ret) ==> LeftBy(coherentBus, ramBus + pos, data, old(hw), hw)
    {
      hide Pipeline, Reached, After, LeftBy, PartlyWritten;
      ghost var t;
      ret, t := CoWriteLoop(data, pos);
      if Broken(ret) {
        AfterSelf(hw);
        LeftLater(coherentBus, ramBus + pos, data, old(hw), Blocks(t, hw), hw, hw);
        Abandoned(t, hw, ramBus, pos);
        return;
      }
      ghost var last := hw;
      var ok := WaitIdle(t);
      if !ok {
        LeftLater(coherentBus, ramBus + pos, data, old(hw), Blocks(t, last), last, hw);
        Abandoned(t, hw, ramBus, pos);
        return Error(ERESTARTSYS);
      }
      Delivered(t, hw, ramBus, pos);
      ret := Count(|data|);
    }

    /** demo_dma_co_write. */
    method CoWrite(user: seq<byte>, pos: nat) returns (ret: Ret, newPos: int)
      requires Ready()
      modifies this`hw
      ensures Valid()
      ensures !Broken(ret) ==> Ready() && Outcome(Ram(), newPos, ret, []) == WriteSpec(old(Ram()), pos, user)
      ensures ret.Count? ==> pos < MAX_OFFSET && ret.n == Min(|user|, MAX_OFFSET - pos) && newPos == pos + ret.n
      ensures ret.Error? ==> newPos == pos
      ensures !Broken(ret) ==> (ret == Error(ENOSPC) <==> pos == MAX_OFFSET)
      ensures !Broken(ret) ==> (ret == Error(EINVAL) <==>
                pos > MAX_OFFSET || (pos < MAX_OFFSET && Min(|user|, MAX_OFFSET - pos) % 1024 != 0))
      ensures Broken(ret) ==> newPos == pos && PartlyWritten(old(Ram()), Ram(), pos, user)
      ensures Broken(ret) ==> LeftBy(coherentBus, ramBus + pos, user, old(hw), hw)
    {
      hide LeftBy;
      newPos := pos;
      NothingLeft(coherentBus, ramBus + pos, user, hw);
      var signalled: bool := *;
      if signalled { return Error(ERESTARTSYS), pos; }
      if pos > MAX_OFFSET { return Error(EINVAL), pos; }
      if pos == MAX_OFFSET { return Error(ENOSPC), pos; }
      var count := |user|;
      if pos + count > MAX_OFFSET { count := count - (pos + count - MAX_OFFSET); }
      if count % 1024 != 0 { return Error(EINVAL), pos; }
      ret := CoWriteBlocks(user[..count], pos);
      if Broken(ret) {
        LeftByMore(coherentBus, ramBus + pos, user[..count], user, old(hw), hw);
        return;
      }
      newPos := pos + count;
    }

    /** One round of demo_dma_st_write's loop: the oldest mapping, if any, is of
        the slot about to be reused. */
    method StWriteRound(ofs: nat, ramPtr: nat, block: seq<byte>, h3: nat, ghost t: Transfer)
      returns (error: Ret, h: nat, ghost t': Transfer, ghost v: Visit)
      requires Valid() && ofs + 1024 <= 4096 && t.ring == kmallocBus && |t.data| <= MAX_OFFSET
      requires Pipeline(t, hw) && t.toRam && t.staged == Blocks(t, hw)
      requires 1024 * (t.staged + 1) <= |t.data| && block == Block(t.data, t.staged)
      requires ofs == RingOfs(t.staged) && ramPtr == t.ram + 1024 * t.staged
      requires h3 == 0 || (h3 == kmallocBus + ofs && h3 in live)
      requires 0 !in live && kmallocBus + ofs !in live - {h3}
      modifies this`hw, this`live, this`maps, this`unmaps, page
      ensures |hw.bus| == |old(hw).bus| && Pipeline(t', hw)
      ensures Broken(error) ==> t' == t && After(old(hw), hw) && hw.submitted == old(hw).submitted
      ensures !Broken(error) ==> t' == t.(staged := t.staged + 1) && t'.staged == Blocks(t', hw)
      ensures !Broken(error) ==> After(old(hw), v.p) && Round(t, t.staged, v, hw)
      ensures !Broken(error) ==> h == kmallocBus + ofs && live == old(live) - {h3} + {h}
      ensures !Broken(error) ==> maps == old(maps) + 1 && unmaps == old(unmaps) + (if h3 == 0 then 0 else 1)
    {
      hide Pipeline, After, Quiet, Staged, FillLevel;
      h, t' := 0, t;
      var ok := WaitFill(2, t);
      v := Visit(hw, hw, hw);
      if !ok { return Error(ERESTARTSYS), h, t, v; }
      NextSlotQuiet(t, hw);
      AfterSelf(hw);
      if h3 != 0 {
        UnmapToDevice(h3, t);
        QuietLater(v.p, hw, kmallocBus + ofs);
      }
      ghost var free := hw;
      AfterTrans(old(hw), v.p, free);
      var fault := CopyToPage(ofs, block);
      if fault { return Error(EFAULT), h, t, v; }
      var failed;
      ghost var a;
      h, failed, a := MapToDevice(ofs, t);
      AfterTrans(old(hw), free, a);
      AfterTrans(v.p, free, a);
      if failed { return Error(EBUSY), h, t, v; }
      t' := t.(staged := t.staged + 1);
      ghost var b := PushBlock(Descriptor(h, ramPtr, 1024), t');
      v := Visit(v.p, a, b);
      AfterSelf(hw);
      error := Count(1024);
    }

    /** The loop of demo_dma_st_write, with its four-deep shift of handles. */
    method StWriteLoop(data: seq<byte>, pos: nat)
      returns (ret: Ret, h0: nat, h1: nat, h2: nat, h3: nat, ghost t: Transfer)
      requires Ready() && pos + |data| <= MAX_OFFSET && |data| % 1024 == 0
      modifies this`hw, this`live, this`maps, this`unmaps, page
      ensures |hw.bus| == |old(hw).bus|
      ensures Blocks(t, hw) >= 0
      ensures Reached(WriteTransfer(kmallocBus, ramBus + pos, data, old(hw), 0), old(hw), Blocks(t, hw), hw)
      ensures t == WriteTransfer(kmallocBus, ramBus + pos, data, old(hw), t.staged) && Pipeline(t, hw)
      ensures !Broken(ret) ==> |data| == 1024 * Blocks(t, hw) && maps == old(maps) + Blocks(t, hw)
      ensures !Broken(ret) ==> Held(kmallocBus, live, Blocks(t, hw), h0, h1, h2, h3)
      ensures !Broken(ret) ==> unmaps == old(unmaps) + if Blocks(t, hw) > 4 then Blocks(t, hw) - 4 else 0
    {
      hide Pipeline, Held, RingOfs, History, Round, After;
      FirstRingOfs();
      assert Held(kmallocBus, live, 0, 0, 0, 0, 0) by { NoneHeld(kmallocBus); }
      ret, h0, h1, h2, h3 := Count(|data|), 0, 0, 0, 0;
      var tempCount, ramPtr, nextOfs, userPtr := |data|, ramBus + pos, 0, 0;
      t := WriteTransfer(kmallocBus, ramBus + pos, data, hw, 0);
      Start(t, hw);
      ghost var t0, past := t, [];
      EmptyHistory(t0, hw);
      while tempCount > 0
        invariant t == WriteTransfer(kmallocBus, ramBus + pos, data, old(hw), t.staged)
        invariant Pipeline(t, hw) && |hw.bus| == |old(hw).bus| && Blocks(t, hw) == t.staged
        invariant userPtr == 1024 * t.staged && userPtr + tempCount == |data| && tempCount >= 0
        invariant ramPtr == ramBus + pos + userPtr && nextOfs == RingOfs(t.staged)
        invariant Held(kmallocBus, live, t.staged, h0, h1, h2, h3)
        invariant maps == old(maps) + t.staged && unmaps == old(unmaps) + if t.staged > 4 then t.staged - 4 else 0
        invariant |past| == t.staged && History(t0, old(hw), past, hw)
      {
        NextRingOfs(t.staged);
        HandlesShift(kmallocBus, live, t.staged, h0, h1, h2, h3);
        var h;
        ghost var was := hw;
        ghost var v;
        ret, h, t, v := StWriteRound(nextOfs, ramPtr, data[userPtr..userPtr + 1024], h3, t);
        past := HistoryGoesOn(t0, old(hw), past, was, v, hw, !Broken(ret));
        if Broken(ret) { return; }
        h3, h2, h1, h0 := h2, h1, h0, h;
        tempCount, userPtr, ramPtr := tempCount - 1024, userPtr + 1024, ramPtr + 1024;
        nextOfs := nextOfs + 1024;
        if nextOfs >= 4096 { nextOfs := 0; }
      }
    }

    /** Unmapping what is left once the engine is idle. */
    method UnmapRest(h0: nat, h1: nat, h2: nat, h3: nat, ghost k: nat, ghost t: Transfer)
      requires Valid() && Pipeline(t, hw) && !Busy(hw) && Held(kmallocBus, live, k, h0, h1, h2, h3)
      modifies this`hw, this`live, this`unmaps
      ensures Pipeline(t, hw) && hw.submitted == old(hw).submitted && |hw.bus| == |old(hw).bus| && !Busy(hw) && live == {}
      ensures unmaps == old(unmaps) + if k > 4 then 4 else k
    {
      hide Pipeline, Held, After, Busy, Later;
      HandlesApart(kmallocBus, live, k, h0, h1, h2, h3);
      UnmapIfAny(h3, t);
      UnmapIfAny(h2, t);
      UnmapIfAny(h1, t);
      UnmapIfAny(h0, t);
    }

    /** A handle variable that is not 0 is unmapped; nothing is in flight any more. */
    method UnmapIfAny(h: nat, ghost t: Transfer)
      requires Pipeline(t, hw) && !Busy(hw) && (h == 0 || h in live)
      modifies this`hw, this`live, this`unmaps
      ensures Pipeline(t, hw) && hw.submitted == old(hw).submitted && |hw.bus| == |old(hw).bus| && !Busy(hw)
      ensures live == (if h == 0 then old(live) else old(live) - {h})
      ensures unmaps == old(unmaps) + (if h == 0 then 0 else 1)
    {
      hide Pipeline, Quiet, After;
      NotBusyQuiet(hw, h);
      if h != 0 { UnmapToDevice(h, t); }
    }

    /** demo_dma_st_write past its argument checks. */
    method StWriteBlocks(data: seq<byte>, pos: nat) returns (ret: Ret)
      requires Ready() && pos + |data| <= MAX_OFFSET && |data| % 1024 == 0
      modifies this`hw, this`live, this`maps, this`unmaps, page
      ensures Valid()
      ensures !Broken(ret) ==> Ready() && ret == Count(|data|)
      ensures !Broken(ret) ==> Ram() == old(Ram())[..pos] + data + old(Ram())[pos + |data|..]
      ensures !Broken(ret) ==> maps == old(maps) + |data| / 1024 && unmaps == old(unmaps) + |data| / 1024
      ensures Broken(ret) ==> PartlyWritten(old(Ram()), Ram(), pos, data)
      ensures Broken(ret) ==> LeftBy(kmallocBus, ramBus + pos, data, old(hw), hw)
    {
      hide Pipeline, Held, Reached, After, LeftBy, PartlyWritten;
      var h0, h1, h2, h3;
      ghost var t;
      ret, h0, h1, h2, h3, t := StWriteLoop(data, pos);
      if Broken(ret) {
        AfterSelf(hw);
        LeftLater(kmallocBus, ramBus + pos, data, old(hw), Blocks(t, hw), hw, hw);
        Abandoned(t, hw, ramBus, pos);
        return;
      }
      ghost var last := hw;
      var ok := WaitIdle(t);
      if !ok {
        LeftLater(kmallocBus, ramBus + pos, data, old(hw), Blocks(t, last), last, hw);
        Abandoned(t, hw, ramBus, pos);
        return Error(ERESTARTSYS);
      }
      UnmapRest(h0, h1, h2, h3, Blocks(t, hw), t);
      Delivered(t, hw, ramBus, pos);
      ret := Count(|data|);
    }

    /** demo_dma_st_write: as the coherent write, and every block's mapping is made
        and unmapped exactly once. */
    method StWrite(user: seq<byte>, pos: nat) returns (ret: Ret, newPos: int)
      requires Ready()
      modifies this`hw, this`live, this`maps, this`unmaps, page
      ensures Valid()
      ensures !Broken(ret) ==> Ready() && Outcome(Ram(), newPos, ret, []) == WriteSpec(old(Ram()), pos, user)
      ensures ret.Count? ==> pos < MAX_OFFSET && ret.n == Min(|user|, MAX_OFFSET - pos) && newPos == pos + ret.n
      ensures ret.Error? ==> newPos == pos
      ensures !Broken(ret) ==> (ret == Error(ENOSPC) <==> pos == MAX_OFFSET)
      ensures !Broken(ret) ==> (ret == Error(EINVAL) <==>
                pos > MAX_OFFSET || (pos < MAX_OFFSET && Min(|user|, MAX_OFFSET - pos) % 1024 != 0))
      ensures ret.Count? ==> maps == old(maps) + ret.n / 1024 && unmaps == old(unmaps) + ret.n / 1024
      ensures Broken(ret) ==> newPos == pos && PartlyWritten(old(Ram()), Ram(), pos, user)
      ensures Broken(ret) ==> LeftBy(kmallocBus, ramBus + pos, user, old(hw), hw)
    {
      hide LeftBy;
      newPos := pos;
      NothingLeft(kmallocBus, ramBus + pos, user, hw);
      var signalled: bool := *;
      if signalled { return Error(ERESTARTSYS), pos; }
      if pos > MAX_OFFSET { return Error(EINVAL), pos; }
      if pos == MAX_OFFSET { return Error(ENOSPC), pos; }
      var count := |user|;
      if pos + count > MAX_OFFSET { count := count - (pos + count - MAX_OFFSET); }
      if count % 1024 != 0 { return Error(EINVAL), pos; }
      ret := StWriteBlocks(user[..count], pos);
      if Broken(ret) {
        LeftByMore(kmallocBus, ramBus + pos, user[..count], user, old(hw), hw);
        return;
      }
      newPos := pos + count;
    }

    // ---------- reads ----------

    /** One round of demo_dma_co_read's loop for block u: submit the block after
        it, or drain if there is none, then wait and take block u out. */
    method CoReadRound(dmaOfs: nat, userOfs: nat, ramPtr: nat, more: bool, ghost t: Transfer, ghost u: nat)
      returns (error: Ret, block: seq<byte>, ghost b: Engine, ghost g: Engine)
      requires Valid() && t.ring == coherentBus && |t.data| <= MAX_OFFSET
      requires Pipeline(t, hw) && !t.toRam && Blocks(t, hw) == u + 1 && 1024 * (u + 1) <= |t.data|
      requires userOfs == RingOfs(u)
      requires more <==> 1024 * (u + 2) <= |t.data|
      requires more ==> dmaOfs == RingOfs(u + 1) && ramPtr == t.ram + 1024 * (u + 1)
      modifies this`hw
      ensures |hw.bus| == |old(hw).bus| && Pipeline(t, hw)
      ensures !Broken(error) ==> block == Block(t.data, u)
      ensures !Broken(error) ==> if more then Blocks(t, hw) == u + 2 else Blocks(t, hw) == u + 1 && !Busy(hw)
      ensures ReadStep(t, u, old(hw), more, b, hw)
      ensures !Broken(error) ==> ReadStep(t, u, old(hw), more, b, g) && FillLevel(g) <= 0 && After(g, hw)
    {
      hide Pipeline, After, Quiet, ReadStep, FillLevel;
      block, b, g := [], hw, hw;
      if more {
        b := PushBlock(Descriptor(ramPtr, coherentBus + dmaOfs, 1024), t);
        PushedStep(t, u, old(hw), b, hw);
      } else {
        var ok := WaitIdle(t);
        WaitedStep(t, u, old(hw), b, hw);
        if !ok { return Error(ERESTARTSYS), [], b, g; }
      }
      ghost var was := hw;
      var ok := WaitFill(0, t);
      ReadStepLater(t, u, old(hw), more, b, was, hw);
      if !ok { return Error(ERESTARTSYS), [], b, g; }
      g := hw;
      OldestBlockReady(t, hw, u);
      var fault;
      block, fault := CopyFromCoherent(userOfs, t, u);
      ReadStepLater(t, u, old(hw), more, b, g, hw);
      if fault { return Error(EFAULT), [], b, g; }
      error := Count(1024);
    }

    /** demo_dma_co_read from the first descriptor on, for at least one block. */
    method CoReadLoop(count: nat, pos: nat, ghost t: Transfer, ghost e0: Engine, ghost h0: seq<ReadVisit>)
      returns (ret: Ret, data: seq<byte>, ghost h: seq<ReadVisit>)
      requires Valid() && Pipeline(t, hw) && !t.toRam && t.ring == coherentBus && t.ram == ramBus + pos
      requires 0 < count == |t.data| <= MAX_OFFSET && count % 1024 == 0 && Blocks(t, hw) == 1
      requires ReadHistory(t, e0, h0, hw) && |h0| == 1
      modifies this`hw
      ensures |hw.bus| == |old(hw).bus| && Pipeline(t, hw)
      ensures ReadHistory(t, e0, h, hw)
      ensures data <= t.data
      ensures !Broken(ret) ==> data == t.data && |t.data| == 1024 * Blocks(t, hw) && !Busy(hw)
    {
      hide Pipeline, RingOfs, ReadHistory, ReadStep, After, FillLevel;
      FirstRingOfs();
      ret, data, h := Count(count), [], h0;
      var tempUser, tempDma, ramPtr, dmaOfs, userOfs := count, count - 1024, ramBus + pos + 1024, 1024, 0;
      ghost var u, seen := 0, hw;
      AfterSelf(hw);
      while tempUser > 0
        invariant |hw.bus| == |old(hw).bus| && Pipeline(t, hw)
        invariant 0 <= tempUser && tempUser + 1024 * u == count && data == t.data[..1024 * u]
        invariant tempUser > 0 ==> Blocks(t, hw) == u + 1 && tempDma == tempUser - 1024
        invariant tempUser > 0 ==> dmaOfs == RingOfs(u + 1) && ramPtr == ramBus + pos + 1024 * (u + 1)
        invariant userOfs == RingOfs(u)
        invariant tempUser == 0 ==> Blocks(t, hw) == u && !Busy(hw)
        invariant ReadHistory(t, e0, h, hw) && ReadHistory(t, e0, h, seen) && After(seen, hw)
        invariant (tempUser > 0 ==> |h| == u + 1) && (u > 0 ==> FillLevel(seen) <= 0)
      {
        NextRingOfs(u);
        NextRingOfs(u + 1);
        var block;
        ghost var b, g, was := hw, hw, hw;
        ret, block, b, g := CoReadRound(dmaOfs, userOfs, ramPtr, tempDma > 0, t, u);
        ghost var past := h;
        h := ReadGoesOn(t, e0, past, seen, was, tempDma > 0, b, hw);
        if Broken(ret) { return; }
        h := ReadGoesOn(t, e0, past, seen, was, tempDma > 0, b, g);
        ReadHistoryLater(t, e0, h, g, hw);
        seen := g;
        if tempDma > 0 {
          tempDma, ramPtr, dmaOfs := tempDma - 1024, ramPtr + 1024, dmaOfs + 1024;
          if dmaOfs >= 4096 { dmaOfs := 0; }
        }
        data := data + block;
        tempUser, userOfs := tempUser - 1024, userOfs + 1024;
        if userOfs >= 4096 { userOfs := 0; }
        u := u + 1;
      }
    }

    /** demo_dma_co_read past its argument checks. */
    method CoReadBlocks(count: nat, pos: nat) returns (ret: Ret, data: seq<byte>)
      requires Ready() && pos + count <= MAX_OFFSET && count % 1024 == 0
      modifies this`hw
      ensures Valid()
      ensures count > 0 ==> Ram() == old(Ram()) && data <= Ram()[pos..pos + count]
      ensures !Broken(ret) ==> ret == Count(count) && |data| == count
      ensures !Broken(ret) && count > 0 ==> Ready()
      ensures count == 0 ==> !Broken(ret) && hw == Submit(old(hw), Descriptor(ramBus + pos, coherentBus, 1024))
      ensures Broken(ret) ==> LeftByRead(coherentBus, ramBus + pos, count, old(hw), hw)
    {
      hide After, LeftByRead;
      data := [];
      ghost var mid := Push(Descriptor(ramBus + pos, coherentBus, 1024));
      IdleStays(old(hw), mid);
      ret := Count(0);
      if count > 0 { ret, data := CoReadRest(count, pos, old(hw)); }
    }

    /** What follows the first descriptor, if there is anything to read. */
    method CoReadRest(count: nat, pos: nat, ghost e0: Engine) returns (ret: Ret, data: seq<byte>)
      requires Valid() && Idle(e0) && hw == Submit(e0, Descriptor(ramBus + pos, coherentBus, 1024))
      requires 0 < count && pos + count <= MAX_OFFSET && count % 1024 == 0
      modifies this`hw
      ensures Valid() && Ram() == old(Ram()) && data <= Ram()[pos..pos + count]
      ensures !Broken(ret) ==> ret == Count(count) && |data| == count && Idle(hw)
      ensures Broken(ret) ==> LeftByRead(coherentBus, ramBus + pos, count, e0, hw)
    {
      hide Pipeline, ReadHistory, After, LeftByRead;
      ghost var t, h := FirstSubmitted(coherentBus, ramBus, pos, count, e0);
      ret, data, h := CoReadLoop(count, pos, t, e0, h);
      Untouched(t, hw, ramBus, pos);
      if Broken(ret) {
        LeftByHistory(coherentBus, ramBus + pos, count, e0, h, hw);
        return;
      }
      Complete(t, hw);
      ret := Count(count);
    }

    /** demo_dma_co_read.  An empty read still submits a descriptor. */
    method CoRead(count0: nat, pos: nat) returns (ret: Ret, newPos: int, data: seq<byte>)
      requires Ready()
      modifies this`hw
      ensures Valid()
      ensures !Broken(ret) && !EmptyRead(pos, count0) ==>
                Ready() && Outcome(Ram(), newPos, ret, data) == ReadSpec(old(Ram()), pos, count0)
      ensures ret.Count? ==> pos <= MAX_OFFSET && |data| == ret.n == Min(count0, MAX_OFFSET - pos) && newPos == pos + ret.n
      ensures ret.Error? ==> newPos == pos
      ensures !Broken(ret) ==> (ret == Error(EINVAL) <==> pos > MAX_OFFSET || Min(count0, MAX_OFFSET - pos) % 1024 != 0)
      ensures !Broken(ret) && EmptyRead(pos, count0) ==>
                ret == Count(0) && newPos == pos && data == [] && Ram() == old(Ram())
                && hw == Submit(old(hw), Descriptor(ramBus + pos, coherentBus, 1024))
      ensures !Broken(ret) ==> (Ready() <==> !EmptyRead(pos, count0))
      ensures Broken(ret) ==> newPos == pos && Ram() == old(Ram()) && data <= ReadSpec(old(Ram()), pos, count0).data
      ensures Broken(ret) ==> LeftByRead(coherentBus, ramBus + pos, count0, old(hw), hw)
    {
      hide LeftByRead;
      newPos, data := pos, [];
      NothingRead(coherentBus, ramBus + pos, count0, hw);
      var signalled: bool := *;
      if signalled { return Error(ERESTARTSYS), pos, []; }
      if pos > MAX_OFFSET { return Error(EINVAL), pos, []; }
      if pos == MAX_OFFSET { return Count(0), pos, []; }
      var count := count0;
      if pos + count > MAX_OFFSET { count := count - (pos + count - MAX_OFFSET); }
      if count % 1024 != 0 { return Error(EINVAL), pos, []; }
      ret, data := CoReadBlocks(count, pos);
      if Broken(ret) {
        LeftByLess(coherentBus, ramBus + pos, count, count0, old(hw), hw);
        return;
      }
      newPos := pos + count;
    }

    /** The first half of a round of demo_dma_st_read's loop: map and submit the
        next block, shifting the two handles, or drain if there is none. */
    method StReadAhead(dmaOfs: nat, ramPtr: nat, more: bool, h: nat, ghost t: Transfer, ghost u: nat)
      returns (error: Ret, h0: nat, h1: nat, ghost pushed: bool, ghost b: Engine)
      requires Valid() && t.ring == kmallocBus
      requires Pipeline(t, hw) && !t.toRam && Blocks(t, hw) == u + 1 && (u == 0 || Finished(t, hw, u - 1))
      requires h == Slot(t, u) && live == {h}
      requires more <==> 1024 * (u + 2) <= |t.data|
      requires more ==> dmaOfs == RingOfs(u + 1) && ramPtr == t.ram + 1024 * (u + 1)
      modifies this`hw, this`live, this`maps
      ensures |hw.bus| == |old(hw).bus| && Pipeline(t, hw)
      ensures !Broken(error) && more ==> Blocks(t, hw) == u + 2 && h1 == h && h0 == Slot(t, u + 1)
                                         && live == {h0, h1} && maps == old(maps) + 1
      ensures !Broken(error) && !more ==> Blocks(t, hw) == u + 1 && !Busy(hw) && h1 == 0 && h0 == h
                                          && live == {h0} && maps == old(maps)
      ensures ReadStep(t, u, old(hw), pushed, b, hw) && (pushed ==> more) && (!Broken(error) ==> pushed == more)
    {
      hide Pipeline, After, ReadStep;
      h0, h1, pushed, b := h, 0, false, hw;
      if more {
        NextSlotQuiet(t, hw);
        var h', failed := MapFromDevice(dmaOfs);
        AfterKeeps(t, old(hw), hw);
        WaitedStep(t, u, old(hw), b, hw);
        if failed { return Error(EBUSY), h0, h1, pushed, b; }
        h1, h0 := h0, h';
        ghost var mapped := hw;
        b := PushBlock(Descriptor(ramPtr, h', 1024), t);
        AfterTrans(old(hw), mapped, b);
        PushedStep(t, u, old(hw), b, hw);
        pushed := true;
      } else {
        var ok := WaitIdle(t);
        WaitedStep(t, u, old(hw), b, hw);
        if !ok { return Error(ERESTARTSYS), h0, h1, pushed, b; }
      }
      error := Count(1024);
    }

    /** One round of demo_dma_st_read's loop for block u, whose mapping is h. */
    method StReadRound(dmaOfs: nat, userOfs: nat, ramPtr: nat, more: bool, h: nat, ghost t: Transfer, ghost u: nat)
      returns (error: Ret, block: seq<byte>, h': nat, ghost pushed: bool, ghost b: Engine, ghost g: Engine)
      requires Valid() && t.ring == kmallocBus && |t.data| <= MAX_OFFSET
      requires Pipeline(t, hw) && !t.toRam && Blocks(t, hw) == u + 1 && 1024 * (u + 1) <= |t.data|
      requires u == 0 || Finished(t, hw, u - 1)
      requires h == Slot(t, u) && live == {h} && userOfs == RingOfs(u)
      requires more <==> 1024 * (u + 2) <= |t.data|
      requires more ==> dmaOfs == RingOfs(u + 1) && ramPtr == t.ram + 1024 * (u + 1)
      modifies this`hw, this`live, this`maps, this`unmaps, page
      ensures |hw.bus| == |old(hw).bus| && Pipeline(t, hw)
      ensures !Broken(error) ==> block == Block(t.data, u) && Finished(t, hw, u) && unmaps == old(unmaps) + 1
      ensures !Broken(error) && more ==> Blocks(t, hw) == u + 2 && h' == Slot(t, u + 1)
                                         && live == {h'} && maps == old(maps) + 1
      ensures !Broken(error) && !more ==> Blocks(t, hw) == u + 1 && !Busy(hw) && live == {} && maps == old(maps)
      ensures ReadStep(t, u, old(hw), pushed, b, hw) && (pushed ==> more)
      ensures !Broken(error) ==> pushed == more && ReadStep(t, u, old(hw), more, b, g) && FillLevel(g) <= 0 && After(g, hw)
    {
      hide Pipeline, Quiet, After, ReadStep, FillLevel;
      block, g := [], hw;
      var h0, h1;
      error, h0, h1, pushed, b := StReadAhead(dmaOfs, ramPtr, more, h, t, u);
      h' := h0;
      if Broken(error) { return; }
      ghost var was := hw;
      error, block, h', g := StReadTake(userOfs, more, h0, h1, t, u);
      ReadStepLater(t, u, old(hw), pushed, b, was, hw);
      if !Broken(error) { ReadStepLater(t, u, old(hw), pushed, b, was, g); }
    }

    /** The second half of a round: wait, unmap block u and copy it out. */
    method StReadTake(userOfs: nat, more: bool, h0: nat, h1: nat, ghost t: Transfer, ghost u: nat)
      returns (error: Ret, block: seq<byte>, h': nat, ghost g: Engine)
      requires Valid() && t.ring == kmallocBus && |t.data| <= MAX_OFFSET && userOfs == RingOfs(u)
      requires Pipeline(t, hw) && !t.toRam && 1024 * (u + 1) <= |t.data|
      requires if more then Blocks(t, hw) == u + 2 && h1 == Slot(t, u) && h0 == Slot(t, u + 1) && live == {h0, h1}
               else Blocks(t, hw) == u + 1 && !Busy(hw) && h1 == 0 && h0 == Slot(t, u) && live == {h0}
      modifies this`hw, this`live, this`unmaps, page
      ensures |hw.bus| == |old(hw).bus| && Pipeline(t, hw) && After(old(hw), hw) && Blocks(t, hw) == old(Blocks(t, hw))
      ensures !Broken(error) ==> block == Block(t.data, u) && Finished(t, hw, u) && unmaps == old(unmaps) + 1
      ensures !Broken(error) ==> if more then h' == h0 && live == {h0} else !Busy(hw) && live == {}
      ensures !Broken(error) ==> After(old(hw), g) && FillLevel(g) <= 0 && After(g, hw)
    {
      hide Pipeline, Quiet, After, FillLevel, RingOfs;
      block, h', g := [], h0, hw;
      TwoSlots(u);
      var ok := WaitFill(0, t);
      if !ok { return Error(ERESTARTSYS), [], h', g; }
      g := hw;
      assert OldestGuard(t, hw, u);
      OldestBlockReady(t, hw, u);
      if h1 != 0 {
        UnmapFromDevice(h1, t, u);
      } else if h0 != 0 {
        UnmapFromDevice(h0, t, u);
        h' := 0;
      }
      AfterTrans(old(hw), g, hw);
      var fault: bool := *;
      if fault { return Error(EFAULT), [], h', g; }
      block := page[userOfs..userOfs + 1024];
      error := Count(1024);
    }

    /** demo_dma_st_read from the first descriptor on, for at least one block. */
    method StReadLoop(count: nat, pos: nat, h: nat, ghost t: Transfer, ghost e0: Engine, ghost v0: seq<ReadVisit>)
      returns (ret: Ret, data: seq<byte>, ghost v: seq<ReadVisit>)
      requires Valid() && Pipeline(t, hw) && !t.toRam && t.ring == kmallocBus && t.ram == ramBus + pos
      requires 0 < count == |t.data| <= MAX_OFFSET && count % 1024 == 0 && Blocks(t, hw) == 1
      requires h == kmallocBus && live == {h}
      requires ReadHistory(t, e0, v0, hw) && |v0| == 1
      modifies this`hw, this`live, this`maps, this`unmaps, page
      ensures |hw.bus| == |old(hw).bus| && Pipeline(t, hw)
      ensures ReadHistory(t, e0, v, hw)
      ensures data <= t.data
      ensures !Broken(ret) ==> data == t.data && |t.data| == 1024 * Blocks(t, hw) && !Busy(hw) && live == {}
      ensures !Broken(ret) ==> maps == old(maps) + count / 1024 - 1 && unmaps == old(unmaps) + count / 1024
    {
      hide Pipeline, RingOfs, ReadHistory, ReadStep, After, FillLevel;
      FirstRingOfs();
      ret, data, v := Count(count), [], v0;
      var tempUser, tempDma, ramPtr, dmaOfs, userOfs := count, count - 1024, ramBus + pos + 1024, 1024, 0;
      var h0 := h;
      ghost var u, seen := 0, hw;
      AfterSelf(hw);
      while tempUser > 0
        invariant |hw.bus| == |old(hw).bus| && Pipeline(t, hw)
        invariant 0 <= tempUser && tempUser + 1024 * u == count && data == t.data[..1024 * u]
        invariant unmaps == old(unmaps) + u && (u == 0 || Finished(t, hw, u - 1))
        invariant tempUser > 0 ==> Blocks(t, hw) == u + 1 && tempDma == tempUser - 1024
        invariant tempUser > 0 ==> dmaOfs == RingOfs(u + 1) && ramPtr == ramBus + pos + 1024 * (u + 1)
        invariant tempUser > 0 ==> h0 == Slot(t, u) && live == {h0} && maps == old(maps) + u
        invariant userOfs == RingOfs(u)
        invariant tempUser == 0 ==> Blocks(t, hw) == u && !Busy(hw) && live == {} && maps == old(maps) + u - 1
        invariant ReadHistory(t, e0, v, hw) && ReadHistory(t, e0, v, seen) && After(seen, hw)
        invariant (tempUser > 0 ==> |v| == u + 1) && (u > 0 ==> FillLevel(seen) <= 0)
      {
        NextRingOfs(u);
        NextRingOfs(u + 1);
        var block;
        ghost var pushed, b, g, was := false, hw, hw, hw;
        ret, block, h0, pushed, b, g := StReadRound(dmaOfs, userOfs, ramPtr, tempDma > 0, h0, t, u);
        ghost var past := v;
        v := ReadGoesOn(t, e0, past, seen, was, pushed, b, hw);
        if Broken(ret) { return; }
        v := ReadGoesOn(t, e0, past, seen, was, pushed, b, g);
        ReadHistoryLater(t, e0, v, g, hw);
        seen := g;
        if tempDma > 0 {
          tempDma, ramPtr, dmaOfs := tempDma - 1024, ramPtr + 1024, dmaOfs + 1024;
          if dmaOfs >= 4096 { dmaOfs := 0; }
        }
        data := data + block;
        tempUser, userOfs := tempUser - 1024, userOfs + 1024;
        if userOfs >= 4096 { userOfs := 0; }
        u := u + 1;
      }
    }

    /** demo_dma_st_read past its argument checks. */
    method StReadBlocks(count: nat, pos: nat) returns (ret: Ret, data: seq<byte>)
      requires Ready() && pos + count <= MAX_OFFSET && count % 1024 == 0
      modifies this`hw, this`live, this`maps, this`unmaps, page
      ensures Valid()
      ensures count > 0 || Broken(ret) ==> Ram() == old(Ram()) && data <= Ram()[pos..pos + count]
      ensures !Broken(ret) ==> ret == Count(count) && |data| == count
      ensures !Broken(ret) && count > 0 ==>
                Ready() && maps == old(maps) + count / 1024 && unmaps == old(unmaps) + count / 1024
      ensures !Broken(ret) && count == 0 ==>
                live == {kmallocBus} && maps == old(maps) + 1 && unmaps == old(unmaps)
                && hw == Submit(old(hw), Descriptor(ramBus + pos, kmallocBus, 1024))
      ensures Broken(ret) ==> LeftByRead(kmallocBus, ramBus + pos, count, old(hw), hw)
    {
      hide After, LeftByRead;
      data := [];
      NothingRead(kmallocBus, ramBus + pos, count, hw);
      var h, failed := MapFromDevice(0);
      if failed {
        IdleStays(old(hw), hw);
        return Error(EBUSY), [];
      }
      IdleStays(old(hw), hw);
      ghost var mid := Push(Descriptor(ramBus + pos, h, 1024));
      IdleStays(old(hw), mid);
      ret := Count(0);
      if count > 0 { ret, data := StReadRest(count, pos, h, old(hw)); }
    }

    /** What follows the first descriptor, if there is anything to read. */
    method StReadRest(count: nat, pos: nat, h: nat, ghost e0: Engine) returns (ret: Ret, data: seq<byte>)
      requires Valid() && Idle(e0) && hw == Submit(e0, Descriptor(ramBus + pos, kmallocBus, 1024))
      requires 0 < count && pos + count <= MAX_OFFSET && count % 1024 == 0 && h == kmallocBus && live == {h}
      modifies this`hw, this`live, this`maps, this`unmaps, page
      ensures Valid() && Ram() == old(Ram()) && data <= Ram()[pos..pos + count]
      ensures !Broken(ret) ==> ret == Count(count) && |data| == count && Ready()
      ensures !Broken(ret) ==> maps == old(maps) + count / 1024 - 1 && unmaps == old(unmaps) + count / 1024
      ensures Broken(ret) ==> LeftByRead(kmallocBus, ramBus + pos, count, e0, hw)
    {
      hide Pipeline, ReadHistory, After, LeftByRead;
      ghost var t, v := FirstSubmitted(kmallocBus, ramBus, pos, count, e0);
      ret, data, v := StReadLoop(count, pos, h, t, e0, v);
      Untouched(t, hw, ramBus, pos);
      if Broken(ret) {
        LeftByHistory(kmallocBus, ramBus + pos, count, e0, v, hw);
        return;
      }
      Complete(t, hw);
      ret := Count(count);
    }

    /** demo_dma_st_read.  Every block's mapping is made and unmapped exactly once,
        except that an empty read leaves one mapping and one descriptor behind. */
    method StRead(count0: nat, pos: nat) returns (ret: Ret, newPos: int, data: seq<byte>)
      requires Ready()
      modifies this`hw, this`live, this`maps, this`unmaps, page
      ensures Valid()
      ensures !Broken(ret) && !EmptyRead(pos, count0) ==>
                Ready() && Outcome(Ram(), newPos, ret, data) == ReadSpec(old(Ram()), pos, count0)
      ensures ret.Count? ==> pos <= MAX_OFFSET && |data| == ret.n == Min(count0, MAX_OFFSET - pos) && newPos == pos + ret.n
      ensures ret.Error? ==> newPos == pos
      ensures !Broken(ret) ==> (ret == Error(EINVAL) <==> pos > MAX_OFFSET || Min(count0, MAX_OFFSET - pos) % 1024 != 0)
      ensures ret.Count? && !EmptyRead(pos, count0) ==>
                maps == old(maps) + ret.n / 1024 && unmaps == old(unmaps) + ret.n / 1024
      ensures !Broken(ret) && EmptyRead(pos, count0) ==>
                ret == Count(0) && newPos == pos && data == [] && Ram() == old(Ram())
                && hw == Submit(old(hw), Descriptor(ramBus + pos, kmallocBus, 1024))
      ensures !Broken(ret) ==> (live == {} <==> !EmptyRead(pos, count0)) && (Ready() <==> !EmptyRead(pos, count0))
      ensures Broken(ret) ==> newPos == pos && Ram() == old(Ram()) && data <= ReadSpec(old(Ram()), pos, count0).data
      ensures Broken(ret) ==> LeftByRead(kmallocBus, ramBus + pos, count0, old(hw), hw)
    {
      hide LeftByRead;
      newPos, data := pos, [];
      NothingRead(kmallocBus, ramBus + pos, count0, hw);
      var signalled: bool := *;
      if signalled { return Error(ERESTARTSYS), pos, []; }
      if pos > MAX_OFFSET { return Error(EINVAL), pos, []; }
      if pos == MAX_OFFSET { return Count(0), pos, []; }
      var count := count0;
      if pos + count > MAX_OFFSET { count := count - (pos + count - MAX_OFFSET); }
      if count % 1024 != 0 { return Error(EINVAL), pos, []; }
      ret, data := StReadBlocks(count, pos);
      if Broken(ret) {
        LeftByLess(kmallocBus, ramBus + pos, count, count0, old(hw), hw);
        return;
      }
      newPos := pos + count;
    }

    /** demo_dma_xx_llseek. */
    method Seek(pos: nat, offset: int, mode: Mode) returns (ret: Ret, newPos: int)
      requires Valid()
      ensures !Broken(ret) ==> Outcome(Ram(), newPos, ret, []) == SeekSpec(Ram(), pos, offset, mode)
      ensures ret.Error? ==> newPos == pos
      ensures ret.Count? ==> mode != BadMode && ret.n == newPos && newPos % 1024 == 0
      ensures ret.Count? && mode == SeekSet ==> offset >= 0 && newPos == Min(offset, MAX_OFFSET)
      ensures ret.Count? && mode == SeekCur ==> pos + offset >= 0 && newPos == Min(pos + offset, MAX_OFFSET)
      ensures ret.Count? && mode == SeekEnd ==> newPos == MAX_OFFSET
    {
      var signalled: bool := *;
      if signalled { return Error(ERESTARTSYS), pos; }
      var next;
      match mode {
        case SeekSet => next := offset;
        case SeekCur => next := pos + offset;
        case SeekEnd => next := MAX_OFFSET;
        case BadMode => return Error(EINVAL), pos;
      }
      if next < 0 { return Error(EINVAL), pos; }
      if next % 1024 != 0 { return Error(EINVAL), pos; }
      if next > MAX_OFFSET { next := MAX_OFFSET; }
      return Count(next), next;
    }
  }

  /** Some write of the user's bytes, from e0, can be interrupted in e. */
  ghost predicate LeftBy(ring: nat, ram: nat, user: seq<byte>, e0: Engine, e: Engine) {
    exists data, k :: data <= user && Reached(WriteTransfer(ring, ram, data, e0, 0), e0, k, e)
  }

  lemma LeftLater(ring: nat, ram: nat, data: seq<byte>, e0: Engine, k: nat, e: Engine, e': Engine)
    requires Reached(WriteTransfer(ring, ram, data, e0, 0), e0, k, e) && After(e, e')
    ensures LeftBy(ring, ram, data, e0, e')
  {
    var t := WriteTransfer(ring, ram, data, e0, 0);
    var h :| |h| == k && History(t, e0, h, e);
    HistoryLater(t, e0, h, e, e');
    assert Reached(t, e0, k, e');
  }

  lemma LeftByMore(ring: nat, ram: nat, data: seq<byte>, user: seq<byte>, e0: Engine, e: Engine)
    requires LeftBy(ring, ram, data, e0, e) && data <= user
    ensures LeftBy(ring, ram, user, e0, e)
  {}

  lemma NothingLeft(ring: nat, ram: nat, user: seq<byte>, e: Engine)
    ensures LeftBy(ring, ram, user, e, e)
  {
    var t := WriteTransfer(ring, ram, [], e, 0);
    EmptyHistory(t, e);
    assert [] <= user && Reached(t, e, 0, e);
  }

  /** Some read of at most count bytes, from e0, can be interrupted in e; or nothing
      has happened at all. */
  ghost predicate LeftByRead(ring: nat, ram: nat, count: nat, e0: Engine, e: Engine) {
    e == e0 || exists n: nat, k :: n <= count && ram + n <= |e0.bus| && ReadReached(ReadTransfer(ring, ram, n, e0), e0, k, e)
  }

  lemma LeftByHistory(ring: nat, ram: nat, count: nat, e0: Engine, h: seq<ReadVisit>, e: Engine)
    requires ram + count <= |e0.bus| && ReadHistory(ReadTransfer(ring, ram, count, e0), e0, h, e)
    ensures LeftByRead(ring, ram, count, e0, e)
  {
    assert ReadReached(ReadTransfer(ring, ram, count, e0), e0, |h|, e);
  }

  lemma LeftByLess(ring: nat, ram: nat, count: nat, more: nat, e0: Engine, e: Engine)
    requires LeftByRead(ring, ram, count, e0, e) && count <= more
    ensures LeftByRead(ring, ram, more, e0, e)
  {}

  lemma NothingRead(ring: nat, ram: nat, count: nat, e: Engine)
    ensures LeftByRead(ring, ram, count, e, e)
  {}

  /** The history of a read whose first descriptor has just been submitted. */
  lemma FirstBlock(t: Transfer, e0: Engine, e: Engine) returns (h: seq<ReadVisit>)
    requires e == Submit(e0, BlockDescriptor(t, 0)) && 1024 <= |t.data|
    ensures |h| == 1 && ReadHistory(t, e0, h, e)
  {
    EmptyReadHistory(t, e0);
    var e';
    h, e' := PlainRead(t, e0, [], e0);
  }

  /** An empty read leaves what a read of one block leaves after submitting it. */
  lemma EmptyReadLeavesOneBlock(ring: nat, ram: nat, e0: Engine)
    requires ram + 1024 <= |e0.bus|
    ensures ReadReached(ReadTransfer(ring, ram, 1024, e0), e0, 1, Submit(e0, Descriptor(ram, ring, 1024)))
  {
    var t := ReadTransfer(ring, ram, 1024, e0);
    assert BlockDescriptor(t, 0) == Descriptor(ram, ring, 1024);
    var h := FirstBlock(t, e0, Submit(e0, BlockDescriptor(t, 0)));
  }

  lemma TwoSlots(u: nat)
    ensures RingOfs(u) != RingOfs(u + 1) && RingOfs(u) <= 3072
  {}

  lemma PushedStep(t: Transfer, u: nat, was: Engine, b: Engine, e: Engine)
    requires After(was, b) && e == Submit(b, BlockDescriptor(t, u + 1))
    ensures ReadStep(t, u, was, true, b, e)
  {
    AfterSelf(e);
  }

  lemma WaitedStep(t: Transfer, u: nat, was: Engine, b: Engine, e: Engine)
    requires After(was, e)
    ensures ReadStep(t, u, was, false, b, e)
  {}

  /** A finished round lengthens the history; an abandoned one only lets the engine run. */
  lemma HistoryGoesOn(t: Transfer, e0: Engine, h: seq<Visit>, was: Engine, v: Visit, e: Engine, done: bool)
    returns (h': seq<Visit>)
    requires History(t, e0, h, was)
    requires if done then After(was, v.p) && Round(t.(staged := |h|), |h|, v, e) else After(was, e)
    ensures History(t, e0, h', e) && |h'| == |h| + (if done then 1 else 0)
  {
    hide History, After;
    h' := h;
    if done {
      HistoryLater(t, e0, h, was, v.p);
      assert Round(t, |h|, v, e);
      HistoryNext(t, e0, h, v, e);
      h' := h + [v];
    } else {
      HistoryLater(t, e0, h, was, e);
    }
  }

  /** An idle engine stays exactly as it is. */
  lemma IdleStays(e: Engine, e': Engine)
    requires Idle(e) && After(e, e')
    ensures e' == e
  {
    var acts :| Runs(e, acts, e');
  }

  function ReadTransfer(ring: nat, ram: nat, count: nat, e: Engine): Transfer
    requires ram + count <= |e.bus|
  {
    Transfer(false, ring, ram, |e.submitted|, e.bus[ram..ram + count], e.bus, 0)
  }

  /** A read of at least one block is under way once its first descriptor is in. */
  lemma FirstSubmitted(ring: nat, ramBus: nat, pos: nat, count: nat, e0: Engine)
    returns (t: Transfer, h: seq<ReadVisit>)
    requires Idle(e0) && ring + 4096 <= |e0.bus| && ramBus + MAX_OFFSET <= |e0.bus|
    requires !Overlaps(ring, 4096, ramBus, MAX_OFFSET)
    requires 1024 <= count && pos + count <= MAX_OFFSET
    ensures t == ReadTransfer(ring, ramBus + pos, count, e0)
    ensures t.data == e0.bus[ramBus..ramBus + MAX_OFFSET][pos..pos + count]
    ensures var e := Submit(e0, Descriptor(ramBus + pos, ring, 1024));
            Pipeline(t, e) && Blocks(t, e) == 1 && ReadHistory(t, e0, h, e) && |h| == 1
  {
    hide Pipeline, ReadHistory;
    t := ReadTransfer(ring, ramBus + pos, count, e0);
    SliceOfSlice(e0.bus, ramBus, pos, count);
    Start(t, e0);
    assert BlockDescriptor(t, 0) == Descriptor(ramBus + pos, ring, 1024);
    SubmitKeeps(t, e0);
    h := FirstBlock(t, e0, Submit(e0, BlockDescriptor(t, 0)));
  }

  lemma RegisterHalves(w: nat, r: nat)
    requires r < 0x1_0000
    ensures (w * 0x1_0000 + r) % 0x1_0000 == r && (w * 0x1_0000 + r) / 0x1_0000 == w
  {}

  lemma SliceOfSlice(bus: seq<byte>, a: nat, pos: nat, count: nat)
    requires a + MAX_OFFSET <= |bus| && pos + count <= MAX_OFFSET
    ensures bus[a..a + MAX_OFFSET][pos..pos + count] == bus[a + pos..a + pos + count]
  {
    var s, u := bus[a..a + MAX_OFFSET][pos..pos + count], bus[a + pos..a + pos + count];
    forall i | 0 <= i < count ensures s[i] == u[i] {}
  }

  /** A read leaves the whole 1 MiB buffer as it was, at every moment. */
  lemma Untouched(t: Transfer, e: Engine, ramBus: nat, pos: nat)
    requires Pipeline(t, e) && !t.toRam && Window(t, ramBus, pos)
    ensures |e.bus| == |t.bus0|
    ensures e.bus[ramBus..ramBus + MAX_OFFSET] == t.bus0[ramBus..ramBus + MAX_OFFSET]
  {
    hide Pipeline;
    Midway(t, e);
  }

  lemma FirstRingOfs()
    ensures RingOfs(0) == 0 && RingOfs(1) == 1024
  {}

  /** The handle i places back in the pipeline after k blocks; 0 if there is none. */
  function Handle(page: nat, k: nat, i: nat): nat {
    if i < k then page + RingOfs(k - 1 - i) else 0
  }

  /** After k blocks the four handle variables hold the last four mappings, and
      those are the live ones. */
  ghost predicate Held(page: nat, live: set<nat>, k: nat, h0: nat, h1: nat, h2: nat, h3: nat) {
    && h0 == Handle(page, k, 0) && h1 == Handle(page, k, 1)
    && h2 == Handle(page, k, 2) && h3 == Handle(page, k, 3)
    && live == {h0, h1, h2, h3} - {0}
  }

  lemma NoneHeld(page: nat)
    ensures Held(page, {}, 0, 0, 0, 0, 0)
  {}

  lemma HandlesDistinct(page: nat, k: nat)
    requires page > 0
    ensures forall i: nat, j: nat | i < j < 4 && Handle(page, k, j) != 0 ::
              Handle(page, k, i) != 0 && Handle(page, k, i) != Handle(page, k, j)
  {
    forall i: nat, j: nat | i < j < 4 && Handle(page, k, j) != 0
      ensures Handle(page, k, i) != 0 && Handle(page, k, i) != Handle(page, k, j)
    {
      OtherSlot(k - 1 - j, k - 1 - i);
      hide RingOfs;
    }
  }

  lemma HandlesApart(page: nat, live: set<nat>, k: nat, h0: nat, h1: nat, h2: nat, h3: nat)
    requires page > 0 && Held(page, live, k, h0, h1, h2, h3)
    ensures live == {h0, h1, h2, h3} - {0}
    ensures (h0 != 0 <==> k > 0) && (h1 != 0 <==> k > 1) && (h2 != 0 <==> k > 2) && (h3 != 0 <==> k > 3)
    ensures h1 != 0 ==> h1 != h0
    ensures h2 != 0 ==> h2 != h0 && h2 != h1
    ensures h3 != 0 ==> h3 != h0 && h3 != h1 && h3 != h2
  {}

  lemma NotBusyQuiet(e: Engine, a: nat)
    requires !Busy(e)
    ensures Quiet(e, a)
  {}

  /** Dropping the oldest mapping and adding one for block k shifts the pipeline. */
  lemma HandlesShift(page: nat, live: set<nat>, k: nat, h0: nat, h1: nat, h2: nat, h3: nat)
    requires page > 0 && Held(page, live, k, h0, h1, h2, h3)
    ensures 0 !in live && (h3 == 0 <==> k < 4) && (h3 != 0 ==> h3 in live)
    ensures var h := page + RingOfs(k);
            && (h3 == 0 || h3 == h) && h !in live - {h3}
            && Held(page, live - {h3} + {h}, k + 1, h, h0, h1, h2)
  {
    HandlesDistinct(page, k);
    HandlesDistinct(page, k + 1);
  }

  function WriteTransfer(ring: nat, ram: nat, data: seq<byte>, e: Engine, staged: nat): Transfer {
    Transfer(true, ring, ram, |e.submitted|, data, e.bus, staged)
  }

  /** The 1 MiB window at ramBus, clear of the ring. */
  predicate Window(t: Transfer, ramBus: nat, pos: nat) {
    && t.ram == ramBus + pos && pos + |t.data| <= MAX_OFFSET && ramBus + MAX_OFFSET <= |t.bus0|
    && !Overlaps(t.ring, 4096, ramBus, MAX_OFFSET)
  }

  /** Whenever a write is abandoned, every byte of the buffer is old or new. */
  lemma Abandoned(t: Transfer, e: Engine, ramBus: nat, pos: nat)
    requires Pipeline(t, e) && t.toRam && Window(t, ramBus, pos)
    ensures |e.bus| == |t.bus0|
    ensures PartlyWritten(t.bus0[ramBus..ramBus + MAX_OFFSET], e.bus[ramBus..ramBus + MAX_OFFSET], pos, t.data)
  {
    hide Pipeline;
    Midway(t, e);
  }

  /** When a write has run to completion, exactly its range is replaced. */
  lemma Delivered(t: Transfer, e: Engine, ramBus: nat, pos: nat)
    requires Pipeline(t, e) && t.toRam && Window(t, ramBus, pos)
    requires !Busy(e) && |t.data| == 1024 * Blocks(t, e)
    ensures |e.bus| == |t.bus0| && Idle(e)
    ensures var ram := t.bus0[ramBus..ramBus + MAX_OFFSET];
            e.bus[ramBus..ramBus + MAX_OFFSET] == ram[..pos] + t.data + ram[pos + |t.data|..]
  {
    Complete(t, e);
  }
}
