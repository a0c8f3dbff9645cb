/**
  One connection of the debug link server: a socket, its bound and data flags,
  and a 3000-byte buffer for each direction, worked on in place.
 */
module MmlinkConnection {
  import opened Bytes
  import opened Counts
  import opened MmlinkLines
  import opened MmlinkSpec

  class Connection {
    var fd: int
    var bound: bool
    var data: bool
    const h2t: array<byte>
    var h2tEnd: nat
    const t2h: array<byte>
    var t2hEnd: nat
    ghost var past: Past

    ghost predicate Valid()
      reads this
    {
      h2t.Length == 3000 && t2h.Length == 3000 && h2t != t2h && h2tEnd <= 3000 && t2hEnd <= 3000
    }

    /** The connection as a value: each buffer up to its end. */
    ghost function Abs(): Conn
      requires Valid()
      reads this, h2t, t2h
    {
      Conn(fd >= 0, bound, data, h2t[..h2tEnd], t2h[..t2hEnd], past)
    }

    constructor ()
      ensures Valid() && Abs() == CLOSED && fresh(h2t) && fresh(t2h)
    {
      h2t, t2h := new byte[3000], new byte[3000];
      fd, bound, data, h2tEnd, t2hEnd, past := -1, false, false, 0, 0, NO_PAST;
    }

    predicate IsOpen()
      reads this
    {
      fd >= 0
    }

    /** close_connection: the socket is closed and everything reset. */
    method Close()
      requires Valid()
      modifies this
      ensures Valid() && Abs() == CLOSED
    {
      fd, bound, data, h2tEnd, t2hEnd, past := -1, false, false, 0, 0, NO_PAST;
    }

    /** handle_receive: appends what the socket delivers, if there is room. */
    method HandleReceive(r: Recv) returns (fail: int)
      requires Valid()
      modifies this`h2tEnd, this`past, h2t
      ensures Valid() && fail == (if ReceiveFails(old(Abs()), r) then -1 else 0)
      ensures Abs() == Received(old(Abs()), r)
      ensures var k := if r.Got? then Min(|r.bytes|, 3000 - old(h2tEnd)) else 0;
              h2tEnd == old(h2tEnd) + k && h2t[..h2tEnd] == old(h2t[..h2tEnd]) + if r.Got? then r.bytes[..k] else []
    {
      fail := 0;
      var room := 3000 - h2tEnd;
      if room == 0 { return; }
      if r.Failed? || (r.Got? && |r.bytes| == 0) {
        fail := -1;
      } else if r.Got? {
        var size := if |r.bytes| < room then |r.bytes| else room;
        Append(h2t, h2tEnd, r.bytes[..size]);
        h2tEnd := h2tEnd + size;
        past := past.(heard := past.heard + r.bytes[..size], h2tIn := past.h2tIn + r.bytes[..size]);
      }
    }

    /** handle_management_command on the C string at the start of line. */
    method ManagementCommand(line: seq<byte>, id: nat) returns (fail: bool)
      modifies this`bound, this`past
      ensures past == old(past).(log := past.log)
      ensures Exec(bound, fail, past.log) == Execute(Exec(old(bound), false, old(past.log)), id, line)
    {
      var cmd := CString(line);
      if cmd == [] { return false; }
      past := past.(log := past.log + [cmd]);
      if !bound {
        if cmd == HandleCommand(id) {
          bound := true;
        } else {
          return true;
        }
      }
      fail := false;
    }

    /** A terminator in the scan: it becomes NUL and the line is carried out. */
    method EndLine(i: nat, start: nat, ghost buf: seq<byte>, ghost x0: Exec, id: nat) returns (failed: bool)
      requires start <= i < h2tEnd <= h2t.Length && |buf| == h2tEnd && IsEol(buf[i])
      requires Scanned(buf, h2t[..h2tEnd], i, start, x0, Exec(bound, false, past.log), id)
      modifies this`bound, this`past, h2t
      ensures past == old(past).(log := past.log)
      ensures failed ==> Manage(buf, x0, id) == Pass(Verdict.Close, Exec(bound, true, past.log), buf)
      ensures !failed ==> Scanned(buf, h2t[..h2tEnd], i + 1, i + 1, x0, Exec(bound, false, past.log), id)
    {
      hide Manage, Scanned, Execute;
      ghost var cur, x := h2t[..h2tEnd], Exec(bound, false, past.log);
      ScanLine(buf, cur, i, start, x0, x, id);
      ScanEol(buf, cur, i, start, x0, x, id);
      h2t[i] := NUL;
      assert h2t[..h2tEnd] == cur[i := NUL];
      assert h2t[start..i] == cur[start..i];
      failed := ManagementCommand(h2t[start..i], id);
    }

    /** The scan of handle_management, which overwrites terminators in place. */
    method Scan(id: nat) returns (verdict: Verdict, start: nat)
      requires h2tEnd <= h2t.Length
      modifies this`bound, this`past, h2t
      ensures past == old(past).(log := past.log)
      ensures Reaches(Manage(old(h2t[..h2tEnd]), Exec(old(bound), false, old(past.log)), id),
                      verdict, bound, past.log, start, h2t[..h2tEnd])
    {
      hide Manage, Scanned, Execute, IsEol, Reaches;
      ghost var buf, x0 := h2t[..h2tEnd], Exec(bound, false, past.log);
      var i := 0;
      start := 0;
      ScanStart(buf, x0, id);
      while i < h2tEnd
        invariant start <= i <= h2tEnd && past == old(past).(log := past.log)
        invariant Scanned(buf, h2t[..h2tEnd], i, start, x0, Exec(bound, false, past.log), id)
      {
        ghost var cur, x := h2t[..h2tEnd], Exec(bound, false, past.log);
        ScanHere(buf, cur, i, start, x0, x, id);
        if h2t[i] == PIPE {
          PipeReached(buf, cur, i, start, x0, x, id);
          return if bound then ToData else Verdict.Close, start;
        } else if IsEol(h2t[i]) {
          var failed := EndLine(i, start, buf, x0, id);
          if failed {
            FailureReached(Manage(buf, x0, id), bound, past.log, start, h2t[..h2tEnd]);
            return Verdict.Close, start;
          }
          start := i + 1;
        } else {
          ScanByte(buf, cur, i, start, x0, x, id);
        }
        i := i + 1;
      }
      ScanRest(buf, h2t[..h2tEnd], i, start, x0, Exec(bound, false, past.log), id);
      verdict := Keep;
    }

    /** handle_management: one in-place pass over the buffer. */
    method HandleManagement(id: nat) returns (fail: int)
      requires Valid() && !data
      modifies this`bound, this`data, this`past, this`h2tEnd, h2t
      ensures Valid()
      ensures var p := PassOver(old(Abs()), id);
              && fail == (if p.verdict == Verdict.Close then -1 else 0)
              && (fail == 0 ==> Abs() == Managed(old(Abs()), p))
    {
      hide Manage;
      var verdict, start := Scan(id);
      assert h2t[..h2tEnd][start..] == h2t[start..h2tEnd];
      if verdict == ToData {
        data, past := true, past.(h2tIn := h2t[..h2tEnd], h2tOut := []);
        return 0;
      }
      fail := if verdict == Verdict.Close then -1 else 0;
      MoveDown(h2t, start, h2tEnd);
      h2tEnd := h2tEnd - start;
    }

    /** Receiving and then a pass over the buffer. */
    method ReceiveAndManage(r: Recv, id: nat) returns (fail: int)
      requires Valid() && !data
      modifies this`bound, this`data, this`past, this`h2tEnd, h2t
      ensures Valid()
      ensures var c := Received(old(Abs()), r);
              var p := PassOver(c, id);
              && (fail != 0 <==> ReceiveFails(old(Abs()), r) || p.verdict == Verdict.Close)
              && (fail == 0 ==> Abs() == Managed(c, p) && data == (p.verdict == ToData))
    {
      hide Received, ReceiveFails, PassOver;
      fail := HandleReceive(r);
      if fail == 0 { fail := HandleManagement(id); }
    }

    /** The sending half of handle_h2t: offers the buffer to the driver until all is
        taken or it takes no more for now, and moves the rest to the front. */
    method DrainToDriver(writes: seq<nat>) returns (out: seq<byte>)
      requires Valid()
      modifies this`h2tEnd, this`past, h2t
      ensures Valid() && |out| == Taken(old(h2tEnd), Writes(writes)) <= old(h2tEnd) && out == old(h2t[..h2tEnd])[..|out|]
      ensures Abs() == ToDriver(old(Abs()), |out|)
    {
      out := OfferToDriver(writes);
      PrefixSplit(h2t, h2tEnd, |out|);
      past := past.(h2tOut := past.h2tOut + out);
      MoveDown(h2t, |out|, h2tEnd);
      h2tEnd := h2tEnd - |out|;
    }

    /** The loop of driver writes; out are the bytes the driver took. */
    method OfferToDriver(writes: seq<nat>) returns (out: seq<byte>)
      requires h2tEnd <= h2t.Length
      ensures |out| == Taken(h2tEnd, Writes(writes)) <= h2tEnd && out == h2t[..|out|]
    {
      out := [];
      var sent, i := 0, 0;
      while sent < h2tEnd
        invariant |out| == sent <= h2tEnd && i <= |writes| && out == h2t[..sent]
        invariant Taken(h2tEnd, Writes(writes)) == sent + Taken(h2tEnd - sent, Writes(writes)[i..])
        decreases |writes| - i
      {
        var n := if i < |writes| then writes[i] else 0;
        if n > h2tEnd - sent { n := h2tEnd - sent; }
        if n == 0 { break; }
        assert h2t[..sent + n] == h2t[..sent] + h2t[sent..sent + n];
        out := out + h2t[sent..sent + n];
        sent, i := sent + n, i + 1;
      }
    }

    /** The sending half of handle_t2h, towards the host; a socket error other than
        EAGAIN is reported. */
    method DrainToHost(sends: seq<Send>) returns (out: seq<byte>, socketError: bool)
      requires Valid()
      modifies this`t2hEnd, this`past, t2h
      ensures Valid() && |out| == Taken(old(t2hEnd), sends) <= old(t2hEnd) && out == old(t2h[..t2hEnd])[..|out|]
      ensures socketError == Breaks(old(t2hEnd), sends) && Abs() == ToHost(old(Abs()), |out|)
    {
      out, socketError := OfferToHost(sends);
      PrefixSplit(t2h, t2hEnd, |out|);
      past := past.(t2hOut := past.t2hOut + out);
      MoveDown(t2h, |out|, t2hEnd);
      t2hEnd := t2hEnd - |out|;
    }

    /** The loop of sends; out are the bytes the host took. */
    method OfferToHost(sends: seq<Send>) returns (out: seq<byte>, socketError: bool)
      requires t2hEnd <= t2h.Length
      ensures |out| == Taken(t2hEnd, sends) <= t2hEnd && out == t2h[..|out|] && socketError == Breaks(t2hEnd, sends)
    {
      out, socketError := [], false;
      var sent, i := 0, 0;
      while sent < t2hEnd
        invariant |out| == sent <= t2hEnd && i <= |sends| && !socketError && out == t2h[..sent]
        invariant Taken(t2hEnd, sends) == sent + Taken(t2hEnd - sent, sends[i..])
        invariant Breaks(t2hEnd, sends) == Breaks(t2hEnd - sent, sends[i..])
        decreases |sends| - i
      {
        if i == |sends| || sends[i].Again? { break; }
        if sends[i].Broken? {
          socketError := true;
          break;
        }
        var n := sends[i].n;
        if n > t2hEnd - sent { n := t2hEnd - sent; }
        if n == 0 { break; }
        assert t2h[..sent + n] == t2h[..sent] + t2h[sent..sent + n];
        out := out + t2h[sent..sent + n];
        sent, i := sent + n, i + 1;
      }
    }

    /** Appends what the driver delivers to the buffer towards the host. */
    method ReadDriver(read: seq<byte>)
      requires Valid()
      modifies this`t2hEnd, this`past, t2h
      ensures Valid() && Abs() == FromDriver(old(Abs()), read)
      ensures var k := Min(|read|, 3000 - old(t2hEnd));
              t2hEnd == old(t2hEnd) + k && t2h[..t2hEnd] == old(t2h[..t2hEnd]) + read[..k]
    {
      var len := if |read| < 3000 - t2hEnd then |read| else 3000 - t2hEnd;
      Append(t2h, t2hEnd, read[..len]);
      past := past.(t2hIn := past.t2hIn + read[..len]);
      t2hEnd := t2hEnd + len;
    }
  }

  /** Bytes stored behind the first n. */
  method Append(a: array<byte>, n: nat, bytes: seq<byte>)
    requires n + |bytes| <= a.Length
    modifies a
    ensures a[..n + |bytes|] == old(a[..n]) + bytes
  {
    forall j | 0 <= j < |bytes| { a[n + j] := bytes[j]; }
  }

  /** memmove of a[start..end] to the front. */
  method MoveDown(a: array<byte>, start: nat, end: nat)
    requires start <= end <= a.Length
    modifies a
    ensures a[..end - start] == old(a[start..end])
  {
    forall j | 0 <= j < end - start { a[j] := a[start + j]; }
  }

  lemma PrefixSplit(a: array<byte>, n: nat, k: nat)
    requires k <= n <= a.Length
    ensures a[..n][..k] == a[..k] && a[..n][k..] == a[k..n]
  {}

  /** The byte and the line under the scan are those of the buffer as received. */
  lemma ScanHere(buf: seq<byte>, cur: seq<byte>, i: nat, start: nat, x0: Exec, x: Exec, id: nat)
    requires Scanned(buf, cur, i, start, x0, x, id) && i < |buf|
    ensures |cur| == |buf| && cur[i] == buf[i]
  {
    ScanLine(buf, cur, i, start, x0, x, id);
  }

  /** The scan has come to what the pass p says: its verdict, its commands, and in cur,
      from start on, the bytes that remain. */
  predicate Reaches(p: Pass, verdict: Verdict, bound: bool, log: seq<seq<byte>>, start: nat, cur: seq<byte>) {
    && verdict == p.verdict && bound == p.exec.bound && log == p.exec.log && start <= |cur|
    && (verdict == Keep ==> cur[start..] == p.buf)
    && (verdict == ToData ==> cur == p.buf)
  }

  lemma PipeReached(buf: seq<byte>, cur: seq<byte>, i: nat, start: nat, x0: Exec, x: Exec, id: nat)
    requires Scanned(buf, cur, i, start, x0, x, id) && i < |buf| && buf[i] == PIPE
    ensures Reaches(Manage(buf, x0, id), if x.bound then ToData else Verdict.Close, x.bound, x.log, start, cur)
  {
    ScanEnd(buf, cur, i, start, x0, x, id);
    hide Manage;
  }

  lemma FailureReached(p: Pass, bound: bool, log: seq<seq<byte>>, start: nat, cur: seq<byte>)
    requires p.verdict == Verdict.Close && p.exec.bound == bound && p.exec.log == log && start <= |cur|
    ensures Reaches(p, Verdict.Close, bound, log, start, cur)
  {}

  lemma ScanRest(buf: seq<byte>, cur: seq<byte>, i: nat, start: nat, x0: Exec, x: Exec, id: nat)
    requires Scanned(buf, cur, i, start, x0, x, id) && i == |buf|
    ensures Reaches(Manage(buf, x0, id), Keep, x.bound, x.log, start, cur)
  {
    hide Manage;
    ScanLine(buf, cur, i, start, x0, x, id);
    ScanEnd(buf, cur, i, start, x0, x, id);
    assert buf[i..] == [];
  }
}
