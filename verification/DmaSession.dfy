/**
  Whole sessions over the two DMA devices.  Any number of open files, each on
  the streaming or the coherent device, refine one plain 1 MiB byte array.
 */
module DmaSession {
  import opened Bytes
  import opened DmaSpec
  import opened DmaDriver

  datatype Op =
    | Seek(file: nat, offset: int, mode: Mode)
    | Write(file: nat, user: seq<byte>)
    | Read(file: nat, count: nat)

  /** The plain array and the file positions. */
  datatype State = State(ram: seq<byte>, pos: seq<nat>)
  datatype Reply = Reply(ret: Ret, data: seq<byte>)

  ghost predicate Sound(s: State) {
    && |s.ram| == MAX_OFFSET
    && forall f | 0 <= f < |s.pos| :: s.pos[f] <= MAX_OFFSET && s.pos[f] % 1024 == 0
  }

  /** One call at a position of the plain array. */
  function CallAt(ram: seq<byte>, pos: nat, op: Op): (o: Outcome)
    requires |ram| == MAX_OFFSET
    ensures |o.ram| == MAX_OFFSET && o.pos >= 0
  {
    match op
    case Seek(_, offset, mode) => SeekSpec(ram, pos, offset, mode)
    case Write(_, user) => WriteSpec(ram, pos, user)
    case Read(_, count) => ReadSpec(ram, pos, count)
  }

  function Call(s: State, op: Op): Outcome
    requires |s.ram| == MAX_OFFSET && op.file < |s.pos|
  {
    CallAt(s.ram, s.pos[op.file], op)
  }

  function Next(s: State, op: Op): (s': State)
    requires |s.ram| == MAX_OFFSET && op.file < |s.pos|
    ensures |s'.ram| == MAX_OFFSET && |s'.pos| == |s.pos|
  {
    var o := Call(s, op);
    State(o.ram, s.pos[op.file := o.pos])
  }

  /** Files exist, and no read asks for nothing before the end of the buffer. */
  predicate Allowed(s: State, op: Op) {
    op.file < |s.pos| && !(op.Read? && EmptyRead(s.pos[op.file], op.count))
  }

  predicate Legal(s: State, ops: seq<Op>)
    requires |s.ram| == MAX_OFFSET
    decreases |ops|
  {
    ops == [] || (Allowed(s, ops[0]) && Legal(Next(s, ops[0]), ops[1..]))
  }

  function Play(s: State, ops: seq<Op>): (s': State)
    requires |s.ram| == MAX_OFFSET && Legal(s, ops)
    ensures |s'.ram| == MAX_OFFSET && |s'.pos| == |s.pos|
    decreases |ops|
  {
    if ops == [] then s else Play(Next(s, ops[0]), ops[1..])
  }

  function Replies(s: State, ops: seq<Op>): (r: seq<Reply>)
    requires |s.ram| == MAX_OFFSET && Legal(s, ops)
    ensures |r| == |ops|
    decreases |ops|
  {
    if ops == [] then []
    else
      var o := Call(s, ops[0]);
      [Reply(o.ret, o.data)] + Replies(Next(s, ops[0]), ops[1..])
  }

  /** Carries out one call on the device it goes to. */
  method Dispatch(dev: Device, streaming: bool, pos: nat, op: Op) returns (ret: Ret, newPos: int, data: seq<byte>)
    requires dev.Ready() && !(op.Read? && EmptyRead(pos, op.count))
    modifies dev, dev.page
    ensures !Broken(ret) ==> dev.Ready() && Outcome(dev.Ram(), newPos, ret, data) == CallAt(old(dev.Ram()), pos, op)
  {
    data := [];
    match op
    case Seek(_, offset, mode) => ret, newPos := dev.Seek(pos, offset, mode);
    case Write(_, user) =>
      if streaming { ret, newPos := dev.StWrite(user, pos); } else { ret, newPos := dev.CoWrite(user, pos); }
    case Read(_, count) =>
      if streaming { ret, newPos, data := dev.StRead(count, pos); } else { ret, newPos, data := dev.CoRead(count, pos); }
  }

  /** Any legal sequence of seeks, writes and reads through either device, as
      long as no call is interrupted or faults, answers exactly as the plain
      array does and leaves the engine idle; if one is, every answer before it
      is still right. */
  method RunSession(dev: Device, streaming: seq<bool>, pos0: seq<nat>, ops: seq<Op>)
    returns (replies: seq<Reply>, stopped: bool, pos: seq<nat>)
    requires dev.Ready() && |streaming| == |pos0| && Legal(State(dev.Ram(), pos0), ops)
    modifies dev, dev.page
    ensures !stopped ==> dev.Ready() && State(dev.Ram(), pos) == Play(State(old(dev.Ram()), pos0), ops)
    ensures replies <= Replies(State(old(dev.Ram()), pos0), ops)
    ensures !stopped ==> |replies| == |ops|
  {
    hide CallAt;
    replies, pos, stopped := [], pos0, false;
    var i := 0;
    ghost var s0 := State(dev.Ram(), pos0);
    while i < |ops|
      invariant 0 <= i == |replies| <= |ops| && |pos| == |pos0|
      invariant dev.Ready() && Legal(State(dev.Ram(), pos), ops[i..])
      invariant Play(s0, ops) == Play(State(dev.Ram(), pos), ops[i..])
      invariant Replies(s0, ops) == replies + Replies(State(dev.Ram(), pos), ops[i..])
    {
      var op := ops[i];
      ghost var s := State(dev.Ram(), pos);
      assert ops[i..][0] == op && ops[i..][1..] == ops[i + 1..];
      var ret, newPos, data := Dispatch(dev, streaming[op.file], pos[op.file], op);
      if Broken(ret) {
        stopped := true;
        return;
      }
      pos := pos[op.file := newPos];
      assert State(dev.Ram(), pos) == Next(s, op);
      replies := replies + [Reply(ret, data)];
      i := i + 1;
    }
    assert ops[i..] == [];
  }

  /** Positions stay multiples of 1024 within the buffer over every session. */
  lemma {:induction false} PositionsAligned(s: State, ops: seq<Op>)
    requires Sound(s) && Legal(s, ops)
    ensures Sound(Play(s, ops))
    decreases |ops|
  {
    if ops != [] {
      PositionsAligned(Next(s, ops[0]), ops[1..]);
    }
  }

  /** The byte a write put at address a, if it was accepted and covers a. */
  predicate Covers(s: State, op: Op, a: nat)
    requires op.file < |s.pos|
  {
    var p := s.pos[op.file];
    && op.Write? && p < MAX_OFFSET && Clip(p, |op.user|) % 1024 == 0
    && p <= a < p + Clip(p, |op.user|)
  }

  /** The value last written to address a, looking back through the session. */
  function Latest(s: State, ops: seq<Op>, a: nat): byte
    requires |s.ram| == MAX_OFFSET && Legal(s, ops) && a < MAX_OFFSET
    decreases |ops|
  {
    if ops == [] then s.ram[a]
    else
      LegalPrefix(s, ops);
      var before, op := ops[..|ops| - 1], ops[|ops| - 1];
      var m := Play(s, before);
      if Covers(m, op, a) then op.user[a - m.pos[op.file]] else Latest(s, before, a)
  }

  lemma {:induction false} LegalPrefix(s: State, ops: seq<Op>)
    requires |s.ram| == MAX_OFFSET && Legal(s, ops) && ops != []
    ensures var before, op := ops[..|ops| - 1], ops[|ops| - 1];
            Legal(s, before) && Allowed(Play(s, before), op) && Play(s, ops) == Next(Play(s, before), op)
    decreases |ops|
  {
    if |ops| > 1 {
      LegalPrefix(Next(s, ops[0]), ops[1..]);
      assert ops[..|ops| - 1][1..] == ops[1..][..|ops| - 2];
    }
  }

  /** After every session each byte of the array is the one written last. */
  lemma {:induction false} LastWriteWins(s: State, ops: seq<Op>, a: nat)
    requires |s.ram| == MAX_OFFSET && Legal(s, ops) && a < MAX_OFFSET
    ensures Play(s, ops).ram[a] == Latest(s, ops, a)
    decreases |ops|
  {
    if ops != [] {
      LegalPrefix(s, ops);
      LastWriteWins(s, ops[..|ops| - 1], a);
    }
  }

  /** So a read returns the bytes last written, through whichever device. */
  lemma ReadsReturnLatest(s: State, ops: seq<Op>, file: nat, count: nat, i: nat)
    requires Sound(s) && Legal(s, ops) && file < |s.pos|
    requires var o := Call(Play(s, ops), Read(file, count)); i < |o.data|
    ensures var o := Call(Play(s, ops), Read(file, count));
            var p := Play(s, ops).pos[file];
            p + i < MAX_OFFSET && o.data[i] == Latest(s, ops, p + i)
  {
    PositionsAligned(s, ops);
    LastWriteWins(s, ops, Play(s, ops).pos[file] + i);
  }
}
