/**
  What the two DMA character devices promise their users: together they are one
  plain 1 MiB byte array with per-file positions.
 */
module DmaSpec {
  import opened Bytes

  const MAX_OFFSET: nat := 0x10_0000

  datatype Errno = EINVAL | ENOSPC | ERESTARTSYS | EFAULT | EBUSY
  datatype Ret = Count(n: nat) | Error(errno: Errno)

  /** The call was interrupted or faulted, possibly with descriptors in flight. */
  predicate Broken(r: Ret) {
    r.Error? && r.errno in {ERESTARTSYS, EFAULT, EBUSY}
  }

  datatype Outcome = Outcome(ram: seq<byte>, pos: int, ret: Ret, data: seq<byte>)

  /** The count after clipping at the end of the buffer. */
  function Clip(pos: nat, count: nat): nat
    requires pos <= MAX_OFFSET
  {
    if pos + count > MAX_OFFSET then MAX_OFFSET - pos else count
  }

  function WriteSpec(ram: seq<byte>, pos: nat, user: seq<byte>): Outcome
    requires |ram| == MAX_OFFSET
  {
    if pos > MAX_OFFSET then Outcome(ram, pos, Error(EINVAL), [])
    else if pos == MAX_OFFSET then Outcome(ram, pos, Error(ENOSPC), [])
    else
      var n := Clip(pos, |user|);
      if n % 1024 != 0 then Outcome(ram, pos, Error(EINVAL), [])
      else Outcome(ram[..pos] + user[..n] + ram[pos + n..], pos + n, Count(n), [])
  }

  function ReadSpec(ram: seq<byte>, pos: nat, count: nat): Outcome
    requires |ram| == MAX_OFFSET
  {
    if pos > MAX_OFFSET then Outcome(ram, pos, Error(EINVAL), [])
    else if pos == MAX_OFFSET then Outcome(ram, pos, Count(0), [])
    else
      var n := Clip(pos, count);
      if n % 1024 != 0 then Outcome(ram, pos, Error(EINVAL), [])
      else Outcome(ram, pos + n, Count(n), ram[pos..pos + n])
  }

  /** A read that asks for nothing although there is something left to read. */
  predicate EmptyRead(pos: nat, count: nat) {
    pos < MAX_OFFSET && count == 0
  }

  datatype Mode = SeekSet | SeekCur | SeekEnd | BadMode

  function SeekSpec(ram: seq<byte>, pos: nat, offset: int, mode: Mode): Outcome {
    var next := match mode case SeekSet => offset case SeekCur => pos + offset case _ => MAX_OFFSET;
    if mode == BadMode || next < 0 || next % 1024 != 0 then Outcome(ram, pos, Error(EINVAL), [])
    else
      var clipped := if next > MAX_OFFSET then MAX_OFFSET else next;
      Outcome(ram, clipped, Count(clipped), [])
  }

  /** Every byte is the old one or the user's byte for that position. */
  ghost predicate PartlyWritten(ram: seq<byte>, ram': seq<byte>, pos: nat, user: seq<byte>)
    requires |ram| == |ram'|
  {
    forall b: nat | b < |ram| ::
      ram'[b] == ram[b] || (pos <= b < pos + |user| && ram'[b] == user[b - pos])
  }
}
