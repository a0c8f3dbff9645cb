/**
  The management protocol of the debug link server on byte strings: a stream is
  cut into lines at each newline or carriage return, each line is a C string,
  and the non-empty ones are commands.
 */
module MmlinkLines {
  import opened Bytes

  const NUL: byte := 0
  const PIPE: byte := '|' as int as byte

  predicate IsEol(c: byte) { c as int == '\n' as int || c as int == '\r' as int }

  /** The terminated lines of s, without their terminators. */
  function Lines(s: seq<byte>): seq<seq<byte>> {
    if s == [] then []
    else
      var n := |s| - 1;
      if IsEol(s[n]) then Lines(s[..n]) + [Tail(s[..n])] else Lines(s[..n])
  }

  /** What follows the last terminator. */
  function Tail(s: seq<byte>): seq<byte> {
    if s == [] then []
    else
      var n := |s| - 1;
      if IsEol(s[n]) then [] else Tail(s[..n]) + [s[n]]
  }

  lemma {:induction false} TailSuffix(s: seq<byte>)
    ensures |Tail(s)| <= |s| && Tail(s) == s[|s| - |Tail(s)|..]
    ensures forall c | c in Tail(s) :: !IsEol(c)
  {
    if s != [] {
      var n := |s| - 1;
      TailSuffix(s[..n]);
      if !IsEol(s[n]) {
        var t := Tail(s[..n]);
        assert Tail(s) == t + [s[n]];
        assert s[|s| - |Tail(s)|..] == s[..n][n - |t|..] + [s[n]];
      }
    }
  }

  lemma LinesSnoc(s: seq<byte>, c: byte)
    ensures Lines(s + [c]) == if IsEol(c) then Lines(s) + [Tail(s)] else Lines(s)
    ensures Tail(s + [c]) == if IsEol(c) then [] else Tail(s) + [c]
  {
    assert (s + [c])[..|s|] == s;
  }

  /** A carriage return ends a line and so does a newline. */
  lemma EitherEndsLine(a: seq<byte>)
    requires forall c | c in a :: c as int != '\r' as int && c as int != '\n' as int
    ensures Lines(a + ['\r' as int as byte]) == [a] && Lines(a + ['\n' as int as byte]) == [a]
    ensures Tail(a + ['\r' as int as byte]) == [] && Tail(a + ['\n' as int as byte]) == []
  {
    NoEol(a);
    LinesSnoc(a, '\r' as int as byte);
    LinesSnoc(a, '\n' as int as byte);
  }

  /** A line read as a C string ends at its first NUL. */
  function CString(s: seq<byte>): (t: seq<byte>)
    ensures t <= s && NUL !in t
    ensures |t| < |s| ==> s[|t|] == NUL
  {
    if s == [] || s[0] == NUL then [] else [s[0]] + CString(s[1..])
  }

  /** The commands in a list of lines: what is left of each, if anything. */
  function Commands(lines: seq<seq<byte>>): seq<seq<byte>> {
    if lines == [] then []
    else
      var c := CString(lines[0]);
      (if c == [] then [] else [c]) + Commands(lines[1..])
  }

  function HexDigit(d: nat): byte
    requires d < 16
  {
    if d < 10 then (48 + d) as byte else (55 + d) as byte
  }

  /** n hexadecimal digits, upper case, most significant first. */
  function Hex(v: nat, n: nat): (s: seq<byte>)
    ensures |s| == n
  {
    if n == 0 then [] else Hex(v / 16, n - 1) + [HexDigit(v % 16)]
  }

  /** "HANDLE " followed by the server id in eight digits. */
  function HandleCommand(id: nat): seq<byte> {
    [72, 65, 78, 68, 76, 69, 32] + Hex(id, 8)
  }

  /** Whether the connection is bound, whether a command has failed, and the
      commands carried out so far (a failing one included). */
  datatype Exec = Exec(bound: bool, failed: bool, log: seq<seq<byte>>)

  /** One line: an unbound connection accepts only the handle, and fails on
      anything else; a bound one accepts every command. */
  function Execute(x: Exec, id: nat, line: seq<byte>): Exec {
    var cmd := CString(line);
    if cmd == [] then x
    else if x.bound then x.(log := x.log + [cmd])
    else if cmd == HandleCommand(id) then Exec(true, false, x.log + [cmd])
    else Exec(false, true, x.log + [cmd])
  }

  function Run(x: Exec, id: nat, lines: seq<seq<byte>>): Exec
    decreases |lines|
  {
    if lines == [] || x.failed then x else Run(Execute(x, id, lines[0]), id, lines[1..])
  }

  lemma {:induction false} RunAppend(x: Exec, id: nat, a: seq<seq<byte>>, b: seq<seq<byte>>)
    ensures Run(x, id, a + b) == Run(Run(x, id, a), id, b)
    decreases |a|
  {
    if a == [] {
      assert a + b == b;
    } else if !x.failed {
      RunAppend(Execute(x, id, a[0]), id, a[1..], b);
      assert (a + b)[1..] == a[1..] + b;
    }
  }

  /** A bound connection carries out every command.  For an unbound one the first
      command decides: if it is the handle, the connection is bound and everything is
      carried out; if not, it fails. */
  function Carried(x: Exec, id: nat, cmds: seq<seq<byte>>): Exec {
    if x.bound || cmds == [] || cmds[0] == HandleCommand(id)
    then Exec(x.bound || cmds != [], false, x.log + cmds)
    else Exec(false, true, x.log + [cmds[0]])
  }

  /** What running lines means. */
  lemma {:induction false} RunMeaning(x: Exec, id: nat, lines: seq<seq<byte>>)
    requires !x.failed
    ensures Run(x, id, lines) == Carried(x, id, Commands(lines))
    decreases |lines|
  {
    if lines == [] {
      assert x.log + [] == x.log;
    } else {
      var z, rest := Execute(x, id, lines[0]), Commands(lines[1..]);
      CarriedStep(x, id, lines[0], rest);
      assert Run(x, id, lines) == Run(z, id, lines[1..]);
      assert z.failed ==> Run(z, id, lines[1..]) == z;
      hide Run, Carried, Execute;
      if !z.failed { RunMeaning(z, id, lines[1..]); }
    }
  }

  lemma CarriedStep(x: Exec, id: nat, line: seq<byte>, rest: seq<seq<byte>>)
    requires !x.failed
    ensures var z, c := Execute(x, id, line), CString(line);
            Carried(x, id, (if c == [] then [] else [c]) + rest) == if z.failed then z else Carried(z, id, rest)
  {
    hide CString, HandleCommand;
    var c := CString(line);
    if c == [] {
      assert [] + rest == rest;
    } else {
      assert x.log + ([c] + rest) == x.log + [c] + rest;
    }
  }

  /** Cutting a stream in two does not change its lines. */
  lemma {:induction false} LinesAppend(a: seq<byte>, b: seq<byte>)
    ensures Lines(a + b) == Lines(a) + Lines(Tail(a) + b)
    ensures Tail(a + b) == Tail(Tail(a) + b)
    decreases |b|
  {
    if b == [] {
      TailIsOpen(a);
      assert a + b == a && Tail(a) + b == Tail(a);
    } else {
      var n := |b| - 1;
      LinesAppend(a, b[..n]);
      LinesAppendOne(a, b[..n], b[n]);
      assert b[..n] + [b[n]] == b;
    }
  }

  lemma LinesAppendOne(a: seq<byte>, b: seq<byte>, c: byte)
    requires Lines(a + b) == Lines(a) + Lines(Tail(a) + b) && Tail(a + b) == Tail(Tail(a) + b)
    ensures Lines(a + (b + [c])) == Lines(a) + Lines(Tail(a) + (b + [c]))
    ensures Tail(a + (b + [c])) == Tail(Tail(a) + (b + [c]))
  {
    hide Lines, Tail;
    LinesSnoc(a + b, c);
    LinesSnoc(Tail(a) + b, c);
    assert a + (b + [c]) == a + b + [c] && Tail(a) + (b + [c]) == Tail(a) + b + [c];
  }

  lemma {:induction false} TailIsOpen(a: seq<byte>)
    ensures Lines(Tail(a)) == [] && Tail(Tail(a)) == Tail(a)
  {
    TailSuffix(a);
    NoEol(Tail(a));
  }

  lemma {:induction false} NoEol(t: seq<byte>)
    requires forall c | c in t :: !IsEol(c)
    ensures Lines(t) == [] && Tail(t) == t
  {
    if t != [] {
      NoEol(t[..|t| - 1]);
    }
  }

  /** Bytes before the first '|', or all of them. */
  function BeforePipe(s: seq<byte>): (p: seq<byte>)
    ensures p <= s && PIPE !in p
    ensures |p| < |s| ==> s[|p|] == PIPE
  {
    if s == [] || s[0] == PIPE then [] else [s[0]] + BeforePipe(s[1..])
  }

  /** Line terminators overwritten by NUL. */
  function Nulled(s: seq<byte>): seq<byte> {
    seq(|s|, i requires 0 <= i < |s| => if IsEol(s[i]) then NUL else s[i])
  }

  datatype Verdict = Keep | Close | ToData

  /** What one pass over the buffer decides and leaves behind. */
  datatype Pass = Pass(verdict: Verdict, exec: Exec, buf: seq<byte>)

  /** Lines before the first '|' are carried out.  If one fails the connection
      closes; otherwise a '|' turns a bound connection into the data connection
      with the whole buffer left in place, terminators overwritten, and closes an
      unbound one; without a '|' the unterminated tail is kept. */
  function Manage(buf: seq<byte>, x: Exec, id: nat): Pass {
    var p := BeforePipe(buf);
    var y := Run(x, id, Lines(p));
    if y.failed then Pass(Close, y, buf)
    else if |p| < |buf| then
      if y.bound then Pass(ToData, y, Nulled(p) + buf[|p|..]) else Pass(Close, y, buf)
    else Pass(Keep, y, Tail(buf))
  }

  // ---------- any chunking of the stream ----------

  function Concat(chunks: seq<seq<byte>>): seq<byte> {
    if chunks == [] then [] else chunks[0] + Concat(chunks[1..])
  }

  /** Receives and passes, in turn, until a pass closes the connection. */
  function Converse(buf: seq<byte>, x: Exec, id: nat, chunks: seq<seq<byte>>): Pass
    decreases |chunks|
  {
    if chunks == [] then Pass(Keep, x, buf)
    else
      var p := Manage(buf + chunks[0], x, id);
      if p.verdict == Keep then Converse(p.buf, p.exec, id, chunks[1..]) else p
  }

  lemma {:induction false} NoPipe(s: seq<byte>)
    requires PIPE !in s
    ensures BeforePipe(s) == s
  {
    if s != [] { NoPipe(s[1..]); }
  }

  /** However a stream without '|' is cut into receives, the commands carried out
      are those of the lines of the whole stream, up to the first failure. */
  lemma {:induction false} ChunkingIrrelevant(seen: seq<byte>, x: Exec, id: nat, chunks: seq<seq<byte>>)
    requires PIPE !in seen + Concat(chunks) && !x.failed
    ensures var q := Converse(Tail(seen), x, id, chunks);
            && q.exec == Run(x, id, Lines(Tail(seen) + Concat(chunks)))
            && q.verdict == (if q.exec.failed then Close else Keep)
            && (q.verdict == Keep ==> q.buf == Tail(seen + Concat(chunks)))
    decreases |chunks|
  {
    hide Lines, Tail;
    var t, rest := Tail(seen), Concat(chunks);
    if chunks == [] {
      TailIsOpen(seen);
      assert t + rest == t && seen + rest == seen;
    } else {
      var c, later := chunks[0], Concat(chunks[1..]);
      TailSuffix(seen);
      NoPipe(t + c);
      var y := Run(x, id, Lines(t + c));
      LinesAppend(t + c, later);
      assert t + rest == t + c + later;
      RunAppend(x, id, Lines(t + c), Lines(Tail(t + c) + later));
      LinesAppend(seen, c);
      assert seen + rest == (seen + c) + later;
      if !y.failed {
        ChunkingIrrelevant(seen + c, y, id, chunks[1..]);
      }
    }
  }

  /** A new connection that receives a stream without '|' in any chunks carries
      out the non-empty lines of the stream, each cut at its first NUL, in order;
      if it is unbound, only when the first one is the handle. */
  lemma CommandsOfStream(bound: bool, id: nat, chunks: seq<seq<byte>>)
    requires PIPE !in Concat(chunks)
    ensures var cmds := Commands(Lines(Concat(chunks)));
            var q := Converse([], Exec(bound, false, []), id, chunks);
            if bound || cmds == [] || cmds[0] == HandleCommand(id)
            then q.verdict == Keep && q.exec.log == cmds && q.buf == Tail(Concat(chunks))
            else q.verdict == Close && q.exec.log == [cmds[0]]
  {
    var s := Concat(chunks);
    assert [] + s == s;
    ChunkingIrrelevant([], Exec(bound, false, []), id, chunks);
    RunMeaning(Exec(bound, false, []), id, Lines(s));
  }

  /** A bound on the lines of a stream, the open one included, bounds the open line
      wherever the stream is cut. */
  lemma CutsAreBounded(s: seq<byte>, n: nat, bound: nat)
    requires n <= |s| && |Tail(s)| <= bound && forall l | l in Lines(s) :: |l| <= bound
    ensures |Tail(s[..n])| <= bound
  {
    var t, rest := Tail(s[..n]), s[n..];
    assert s == s[..n] + rest;
    LinesAppend(s[..n], rest);
    TailSuffix(s[..n]);
    OpenLineGrows(t, rest);
    if Lines(t + rest) != [] { assert Lines(t + rest)[0] in Lines(s); }
  }

  /** If no line of a stream is longer than 2999 bytes, the 3000-byte buffer has
      room after every pass, wherever the stream is cut. */
  lemma RoomRemains(s: seq<byte>, n: nat)
    requires n <= |s| && |Tail(s)| <= 2999 && forall l | l in Lines(s) :: |l| <= 2999
    ensures |Tail(s[..n])| < 3000
  {
    CutsAreBounded(s, n, 2999);
  }

  lemma {:induction false} OpenLineGrows(t: seq<byte>, rest: seq<byte>)
    requires forall c | c in t :: !IsEol(c)
    ensures if Lines(t + rest) == [] then t <= Tail(t + rest) else t <= Lines(t + rest)[0]
    decreases |rest|
  {
    if rest == [] {
      NoEol(t);
      assert t + rest == t;
    } else {
      var n := |rest| - 1;
      OpenLineGrows(t, rest[..n]);
      LinesSnoc(t + rest[..n], rest[n]);
      assert t + rest == t + rest[..n] + [rest[n]];
    }
  }

  /** Some line of the stream, ended or still open, is longer than 2999 bytes. */
  ghost predicate HasLongLine(s: seq<byte>) {
    |Tail(s)| >= 3000 || exists l | l in Lines(s) :: |l| >= 3000
  }

  lemma {:induction false} LongLineFills(s: seq<byte>)
    requires HasLongLine(s)
    ensures exists n | 0 <= n <= |s| :: |Tail(s[..n])| >= 3000
  {
    if |Tail(s)| >= 3000 {
      assert s[..|s|] == s;
    } else {
      var k := |s| - 1;
      LinesSnoc(s[..k], s[k]);
      assert s == s[..k] + [s[k]];
      LongLineFills(s[..k]);
      var n :| 0 <= n <= k && |Tail(s[..k][..n])| >= 3000;
      assert s[..k][..n] == s[..n];
    }
  }

  /** The 3000-byte buffer fills up with one open line at some cut of a stream if
      and only if the stream has a line of 3000 bytes or more. */
  lemma FillsIffLongLine(s: seq<byte>)
    ensures (exists n | 0 <= n <= |s| :: |Tail(s[..n])| >= 3000) <==> HasLongLine(s)
  {
    if HasLongLine(s) {
      LongLineFills(s);
    } else {
      forall n | 0 <= n <= |s| ensures |Tail(s[..n])| < 3000 { RoomRemains(s, n); }
    }
  }

  /** No ended line is longer than 2999 bytes. */
  ghost predicate ShortLines(s: seq<byte>) { forall l | l in Lines(s) :: |l| <= 2999 }

  lemma {:induction false} LineIsShorter(s: seq<byte>, l: seq<byte>)
    requires l in Lines(s)
    ensures |l| < |s|
  {
    var n := |s| - 1;
    if IsEol(s[n]) && l == Tail(s[..n]) { TailSuffix(s[..n]); } else { LineIsShorter(s[..n], l); }
  }

  /** What arrives in a 3000-byte buffer behind an open line ends no longer line. */
  lemma ShortLinesStay(s: seq<byte>, got: seq<byte>)
    requires ShortLines(s) && |Tail(s)| + |got| <= 3000
    ensures ShortLines(s + got)
  {
    LinesAppend(s, got);
    forall l | l in Lines(s + got) ensures |l| <= 2999 {
      if l !in Lines(s) { LineIsShorter(Tail(s) + got, l); }
    }
  }

  /** Before its last byte, such a stream has never had 3000 bytes of an open line. */
  lemma OpenLineBeforeEnd(s: seq<byte>, n: nat)
    requires ShortLines(s) && |Tail(s)| <= 3000 && n < |s|
    ensures |Tail(s[..n])| < 3000
  {
    var c := s[n];
    assert s[..n + 1] == s[..n] + [c] && s == s[..n + 1] + s[n + 1..];
    LinesSnoc(s[..n], c);
    if IsEol(c) {
      LinesAppend(s[..n + 1], s[n + 1..]);
      assert Tail(s[..n]) in Lines(s);
    } else {
      CutsAreBounded(s, n + 1, 3000);
    }
  }

  /** A stream received with short lines only, and an open line that fits, has not got
      past any cut that leaves an open line of 3000 bytes. */
  lemma StopsInLongLine(heard: seq<byte>, stream: seq<byte>, n: nat)
    requires heard <= stream && n <= |stream| && |Tail(stream[..n])| >= 3000
    requires ShortLines(heard) && |Tail(heard)| <= 3000
    ensures |heard| <= n
  {
    if n < |heard| {
      assert heard[..n] == stream[..n];
      OpenLineBeforeEnd(heard, n);
    }
  }

  /** With the buffer full of one open line a pass changes nothing. */
  lemma FullBufferJams(buf: seq<byte>, x: Exec, id: nat)
    requires |buf| == 3000 && PIPE !in buf && Tail(buf) == buf && !x.failed
    ensures Manage(buf, x, id) == Pass(Keep, x, buf)
  {
    NoPipe(buf);
    TailSuffix(buf);
    NoEol(buf);
  }

  // ---------- the handle ----------

  /** A hexadecimal numeral read back: what a digit stands for, and a row of them. */
  function DigitValue(c: byte): int {
    if '0' as int <= c as int <= '9' as int then c as int - '0' as int
    else if 'A' as int <= c as int <= 'F' as int then c as int - 'A' as int + 10
    else -1
  }

  function HexValue(s: seq<byte>): int {
    if s == [] then 0 else 16 * HexValue(s[..|s| - 1]) + DigitValue(s[|s| - 1])
  }

  function Power16(n: nat): nat { if n == 0 then 1 else 16 * Power16(n - 1) }

  /** The digits of a number that fits stand for that number. */
  lemma {:induction false} HexReadsBack(v: nat, n: nat)
    requires v < Power16(n)
    ensures HexValue(Hex(v, n)) == v && forall c | c in Hex(v, n) :: DigitValue(c) >= 0
  {
    if n > 0 {
      HexReadsBack(v / 16, n - 1);
      assert Hex(v, n)[..n - 1] == Hex(v / 16, n - 1);
    }
  }

  /** Characters as bytes. */
  function Ascii(text: string): (s: seq<byte>)
    requires forall c | c in text :: c as int < 128
    ensures |s| == |text|
  {
    seq(|text|, i requires 0 <= i < |text| => (assert text[i] in text; text[i] as int as byte))
  }

  /** The handle is the word HANDLE, a space and the id in eight digits, so different
      ids have different handles. */
  lemma HandleNamesId(id: nat)
    requires id < 0x1_0000_0000
    ensures var h := HandleCommand(id); |h| == 15 && h[..7] == Ascii("HANDLE ") && HexValue(h[7..]) == id
  {
    assert Power16(8) == 0x1_0000_0000 by {
      assert Power16(2) == 256;
      assert Power16(4) == 0x1_0000;
      assert Power16(6) == 0x100_0000;
    }
    HexReadsBack(id, 8);
    var h := HandleCommand(id);
    assert h[7..] == Hex(id, 8);
    var a := Ascii("HANDLE ");
    assert a == [72, 65, 78, 68, 76, 69, 32];
  }

  lemma HandlesDiffer(a: nat, b: nat)
    requires a < 0x1_0000_0000 && b < 0x1_0000_0000 && a != b
    ensures HandleCommand(a) != HandleCommand(b)
  {
    HandleNamesId(a);
    HandleNamesId(b);
  }

  /** Digits are plain characters: no terminator, NUL or '|'. */
  predicate Plain(c: byte) { !IsEol(c) && c != NUL && c != PIPE }

  lemma {:induction false} HexIsPlain(v: nat, n: nat)
    ensures forall c | c in Hex(v, n) :: Plain(c)
  {
    if n > 0 { HexIsPlain(v / 16, n - 1); }
  }

  lemma HandleIsPlain(id: nat)
    ensures forall c | c in HandleCommand(id) :: Plain(c)
  {
    HexIsPlain(id, 8);
  }

  lemma {:induction false} PlainCString(s: seq<byte>)
    requires forall c | c in s :: Plain(c)
    ensures CString(s) == s
  {
    if s != [] {
      PlainCString(s[1..]);
      assert s == [s[0]] + s[1..] && Plain(s[0]);
    }
  }

  /** An unbound connection that sends the handle, a newline and a '|' becomes the
      data connection, with what it sent left in the buffer. */
  lemma HandleThenPipe(id: nat)
    ensures var p := Manage(HandleCommand(id) + [10, PIPE], Exec(false, false, []), id);
            p.verdict == ToData && p.exec == Exec(true, false, [HandleCommand(id)]) && p.buf != []
  {
    var h := HandleCommand(id);
    var buf := h + [10, PIPE];
    HandleIsPlain(id);
    assert buf[..|h| + 1] == h + [10];
    PipeAt(buf, |h| + 1);
    NoEol(h);
    LinesSnoc(h, 10);
    PlainCString(h);
    RunLine(Exec(false, false, []), id, [], h);
    assert [] + [h] == [h];
  }

  // ---------- one pass, byte by byte ----------

  /** A pass over buf has reached index i: cur is the buffer now, start is where
      the open line begins, and x is the outcome of the lines so far. */
  ghost predicate Scanned(buf: seq<byte>, cur: seq<byte>, i: nat, start: nat, x0: Exec, x: Exec, id: nat) {
    && start <= i <= |buf| && PIPE !in buf[..i]
    && cur == Nulled(buf[..i]) + buf[i..]
    && buf[start..i] == Tail(buf[..i])
    && x == Run(x0, id, Lines(buf[..i])) && !x.failed
  }

  lemma ScanStart(buf: seq<byte>, x0: Exec, id: nat)
    requires !x0.failed
    ensures Scanned(buf, buf, 0, 0, x0, x0, id)
  {
    assert buf == Nulled(buf[..0]) + buf[0..];
  }

  lemma ScanLine(buf: seq<byte>, cur: seq<byte>, i: nat, start: nat, x0: Exec, x: Exec, id: nat)
    requires Scanned(buf, cur, i, start, x0, x, id)
    ensures |cur| == |buf| && (i < |buf| ==> cur[i] == buf[i])
    ensures cur[start..i] == buf[start..i] && cur[start..] == buf[start..i] + buf[i..]
  {
    TailSuffix(buf[..i]);
    forall j | start <= j < i ensures cur[j] == buf[j] {
      assert buf[j] == buf[start..i][j - start];
    }
  }

  /** An ordinary byte extends the open line. */
  lemma ScanByte(buf: seq<byte>, cur: seq<byte>, i: nat, start: nat, x0: Exec, x: Exec, id: nat)
    requires Scanned(buf, cur, i, start, x0, x, id) && i < |buf| && buf[i] != PIPE && !IsEol(buf[i])
    ensures Scanned(buf, cur, i + 1, start, x0, x, id)
  {
    hide Tail, Lines, Run, Nulled;
    assert buf[..i + 1] == buf[..i] + [buf[i]];
    LinesSnoc(buf[..i], buf[i]);
    assert buf[start..i + 1] == buf[start..i] + [buf[i]];
    NulledStep(buf, i);
  }

  lemma NulledStep(buf: seq<byte>, i: nat)
    requires i < |buf|
    ensures var cur := Nulled(buf[..i]) + buf[i..];
            && |cur| == |buf| && cur[i := if IsEol(buf[i]) then NUL else buf[i]] == Nulled(buf[..i + 1]) + buf[i + 1..]
            && (!IsEol(buf[i]) ==> cur == Nulled(buf[..i + 1]) + buf[i + 1..])
  {}

  /** A terminator ends the open line, which is then carried out. */
  lemma ScanEol(buf: seq<byte>, cur: seq<byte>, i: nat, start: nat, x0: Exec, x: Exec, id: nat)
    requires Scanned(buf, cur, i, start, x0, x, id) && i < |buf| && IsEol(buf[i])
    ensures |cur| == |buf|
    ensures var y := Execute(x, id, buf[start..i]);
            if y.failed then Manage(buf, x0, id) == Pass(Close, y, buf)
            else Scanned(buf, cur[i := NUL], i + 1, i + 1, x0, y, id)
  {
    var line, y := buf[start..i], Execute(x, id, buf[start..i]);
    assert buf[..i + 1] == buf[..i] + [buf[i]];
    LinesSnoc(buf[..i], buf[i]);
    hide Tail, Lines, Execute, Run, Nulled, Manage;
    RunLine(x0, id, Lines(buf[..i]), line);
    NulledStep(buf, i);
    assert buf[i] != PIPE;
    hide IsEol;
    if y.failed {
      FailureStands(buf, i + 1, x0, y, id);
    } else {
      assert buf[i + 1..i + 1] == [];
    }
  }

  lemma RunLine(x0: Exec, id: nat, lines: seq<seq<byte>>, line: seq<byte>)
    requires !Run(x0, id, lines).failed
    ensures Run(x0, id, lines + [line]) == Execute(Run(x0, id, lines), id, line)
  {
    RunAppend(x0, id, lines, [line]);
    assert [line] != [] && [line][1..] == [];
  }

  lemma FailureStands(buf: seq<byte>, n: nat, x0: Exec, y: Exec, id: nat)
    requires n <= |buf| && PIPE !in buf[..n] && y == Run(x0, id, Lines(buf[..n])) && y.failed
    ensures Manage(buf, x0, id) == Pass(Close, y, buf)
  {
    var p := BeforePipe(buf);
    assert n <= |p| && p[..n] == buf[..n] && p == p[..n] + p[n..];
    LinesAppend(p[..n], p[n..]);
    RunAppend(x0, id, Lines(p[..n]), Lines(Tail(p[..n]) + p[n..]));
  }

  /** A '|' or the end of the buffer ends the pass. */
  lemma ScanEnd(buf: seq<byte>, cur: seq<byte>, i: nat, start: nat, x0: Exec, x: Exec, id: nat)
    requires Scanned(buf, cur, i, start, x0, x, id) && (i == |buf| || buf[i] == PIPE)
    ensures Manage(buf, x0, id) ==
            if i == |buf| then Pass(Keep, x, buf[start..])
            else if x.bound then Pass(ToData, x, cur) else Pass(Close, x, buf)
  {
    if i == |buf| {
      assert buf[..i] == buf && buf[start..i] == buf[start..];
      NoPipe(buf);
    } else {
      PipeAt(buf, i);
    }
  }

  lemma {:induction false} PipeAt(buf: seq<byte>, i: nat)
    requires i < |buf| && PIPE !in buf[..i] && buf[i] == PIPE
    ensures BeforePipe(buf) == buf[..i]
  {
    if i > 0 {
      assert buf[1..][..i - 1] == buf[..i][1..];
      PipeAt(buf[1..], i - 1);
    }
  }
}
