/**
  The debug link server on values: its state, what the sockets and the driver may
  answer, and one round of the select loop as a function of those answers.
 */
module MmlinkSpec {
  import opened Bytes
  import opened Counts
  import opened MmlinkLines

  /** What has happened since the connection was accepted. */
  datatype Past = Past(
    log: seq<seq<byte>>,    // commands carried out
    alone: bool,            // no other connection was open at accept
    welcomeId: nat,         // the server id when it was welcomed
    heard: seq<byte>,       // bytes received
    h2tIn: seq<byte>,       // bytes taken in as the data connection
    h2tOut: seq<byte>,      // and accepted by the driver
    t2hIn: seq<byte>,       // bytes read from the driver
    t2hOut: seq<byte>)      // and accepted by the host

  datatype Conn = Conn(open: bool, bound: bool, data: bool, h2t: seq<byte>, t2h: seq<byte>, past: Past)

  const NO_PAST := Past([], false, 0, [], [], [], [], [])
  const CLOSED := Conn(false, false, false, [], [], NO_PAST)

  /** hostGot and driverGot are the bytes sent to hosts and to the driver so far. */
  datatype Flags = Flags(t2hPending: bool, h2tPending: bool, driverBlocked: bool, hostBlocked: bool,
                         hostGot: seq<byte>, driverGot: seq<byte>)

  datatype Sys = Sys(id: nat, num: int, c0: Conn, c1: Conn, flags: Flags)

  const INITIAL := Sys(0, 0, CLOSED, CLOSED, Flags(false, false, false, false, [], []))

  // ---------- what the outside answers ----------

  /** A socket when select returns, and what recv then gives. */
  datatype Recv = NotReady | Got(bytes: seq<byte>) | Nothing | Failed

  /** The result of one send or driver write. */
  datatype Send = Took(n: nat) | Again | Broken

  datatype Driver = Driver(readable: bool, read: seq<byte>, writable: bool, writes: seq<nat>)
  datatype Host = Host(writable: bool, sends: seq<Send>)
  datatype In = In(listen: bool, socket: int, r0: Recv, r1: Recv, driver: Driver, host: Host)

  // ---------- one connection ----------

  /** What fits of some bytes in a 3000-byte buffer that holds n. */
  function Fitting(bytes: seq<byte>, n: nat): seq<byte> {
    bytes[..Min(|bytes|, if n < 3000 then 3000 - n else 0)]
  }

  function WithHeard(c: Conn, got: seq<byte>): Conn {
    c.(h2t := c.h2t + got, past := c.past.(heard := c.past.heard + got, h2tIn := c.past.h2tIn + got))
  }

  /** handle_receive fails when recv fails or the peer has closed, but not when
      there is no room. */
  predicate ReceiveFails(c: Conn, r: Recv) { |c.h2t| < 3000 && (r == Failed || r == Got([])) }

  function Received(c: Conn, r: Recv): Conn {
    if r.Got? && |c.h2t| < 3000 then WithHeard(c, Fitting(r.bytes, |c.h2t|)) else c
  }

  /** What a pass of handle_management decides about a connection. */
  function PassOver(c: Conn, id: nat): Pass { Manage(c.h2t, Exec(c.bound, false, c.past.log), id) }

  /** The connection after a pass that did not close it. */
  function Managed(c: Conn, p: Pass): Conn {
    var d := c.(bound := p.exec.bound, h2t := p.buf, past := c.past.(log := p.exec.log));
    if p.verdict == ToData then d.(data := true, past := d.past.(h2tIn := p.buf, h2tOut := [])) else d
  }

  /** How many of len bytes a row of sends takes: until all are taken or one takes
      none.  The row running out means none. */
  function Taken(len: nat, sends: seq<Send>): (n: nat)
    ensures n <= len
    decreases |sends|
  {
    if len == 0 || sends == [] || !sends[0].Took? || sends[0].n == 0 then 0
    else
      var n := Min(sends[0].n, len);
      n + Taken(len - n, sends[1..])
  }

  /** The row of sends ends with a socket error. */
  predicate Breaks(len: nat, sends: seq<Send>)
    decreases |sends|
  {
    len > 0 && sends != [] &&
    (sends[0] == Broken || (sends[0].Took? && sends[0].n > 0 && Breaks(len - Min(sends[0].n, len), sends[1..])))
  }

  function Writes(ns: seq<nat>): (s: seq<Send>)
    ensures |s| == |ns|
    ensures forall i | 0 <= i < |ns| :: s[i] == Took(ns[i])
  {
    seq(|ns|, i requires 0 <= i < |ns| => Took(ns[i]))
  }

  function ToHost(c: Conn, n: nat): Conn
    requires n <= |c.t2h|
  {
    c.(t2h := c.t2h[n..], past := c.past.(t2hOut := c.past.t2hOut + c.t2h[..n]))
  }

  function ToDriver(c: Conn, n: nat): Conn
    requires n <= |c.h2t|
  {
    c.(h2t := c.h2t[n..], past := c.past.(h2tOut := c.past.h2tOut + c.h2t[..n]))
  }

  function FromDriver(c: Conn, bytes: seq<byte>): Conn {
    var got := Fitting(bytes, |c.t2h|);
    c.(t2h := c.t2h + got, past := c.past.(t2hIn := c.past.t2hIn + got))
  }

  // ---------- the server ----------

  function Get(s: Sys, i: nat): Conn { if i == 0 then s.c0 else s.c1 }
  function Put(s: Sys, i: nat, c: Conn): Sys { if i == 0 then s.(c0 := c) else s.(c1 := c) }
  function RecvOf(e: In, i: nat): Recv { if i == 0 then e.r0 else e.r1 }

  /** get_data_connection: looks at the first num slots only. */
  function DataSlot(s: Sys): (d: int)
    ensures -1 <= d < 2
  {
    if s.num > 0 && s.c0.data then 0 else if s.num > 1 && s.c1.data then 1 else -1
  }

  /** handle_accept and the welcome: the first closed slot, if any, gets the socket. */
  function Accepted(s: Sys): Sys {
    if s.c0.open && s.c1.open then s
    else
      var first := s.num == 0;
      var id := if first then (s.id + 1) % 0x1_0000_0000 else s.id;
      var i := if s.c0.open then 1 else 0;
      var c := Get(s, i);
      var d := c.(open := true, bound := first || c.bound, past := c.past.(alone := first, welcomeId := id));
      Put(s, i, d).(num := s.num + 1, id := id)
  }

  function Closed(s: Sys, i: nat): Sys { Put(s, i, CLOSED).(num := s.num - 1) }

  // ---------- the data connection's turn, on that connection and the flags ----------

  datatype Link = Link(c: Conn, f: Flags)

  /** The sending half of handle_t2h. */
  function SentToHost(x: Link, n: nat): Link
    requires n <= |x.c.t2h|
  {
    var rest := n < |x.c.t2h|;
    Link(ToHost(x.c, n),
         x.f.(t2hPending := x.f.t2hPending || (rest && n > 0), hostBlocked := rest,
               hostGot := x.f.hostGot + x.c.t2h[..n]))
  }

  function ReadFrom(c: Conn, d: Driver): Conn { if d.readable then FromDriver(c, d.read) else c }

  predicate T2hReady(f: Flags, canRead: bool, canWrite: bool) { if f.t2hPending then canWrite else canRead }

  /** handle_t2h: driver to host. */
  function T2h(x: Link, d: Driver, canWrite: bool, sends: seq<Send>): Link {
    if !T2hReady(x.f, d.readable, canWrite) then x
    else
      var c := ReadFrom(x.c, d);
      if c.t2h == [] then Link(c, x.f.(t2hPending := false))
      else if canWrite then SentToHost(Link(c, x.f), Taken(|c.t2h|, sends))
      else Link(c, x.f)
  }

  /** It fails on a socket error. */
  predicate T2hBreaks(x: Link, d: Driver, canWrite: bool, sends: seq<Send>) {
    T2hReady(x.f, d.readable, canWrite) && canWrite && Breaks(|ReadFrom(x.c, d).t2h|, sends)
  }

  /** The sending half of handle_h2t. */
  function SentToDriver(x: Link, n: nat): Link
    requires n <= |x.c.h2t|
  {
    var rest := n < |x.c.h2t|;
    Link(ToDriver(x.c, n),
         x.f.(h2tPending := x.f.h2tPending || rest, driverBlocked := rest, driverGot := x.f.driverGot + x.c.h2t[..n]))
  }

  predicate H2tReady(f: Flags, r: Recv, canWrite: bool) { if f.h2tPending then canWrite else r != NotReady }

  /** handle_h2t fails when receiving does. */
  predicate H2tFails(x: Link, r: Recv, canWrite: bool) { H2tReady(x.f, r, canWrite) && ReceiveFails(x.c, r) }

  /** handle_h2t: host to driver. */
  function H2t(x: Link, r: Recv, canWrite: bool, writes: seq<nat>): Link {
    if !H2tReady(x.f, r, canWrite) || ReceiveFails(x.c, r) then x
    else
      var c := Received(x.c, r);
      if c.h2t == [] then Link(c, x.f.(h2tPending := false))
      else if canWrite then SentToDriver(Link(c, x.f), Taken(|c.h2t|, Writes(writes)))
      else Link(c, x.f)
  }

  /** The select loop asks to be told that the host or the driver can be written
      only while it is marked blocked and something is pending. */
  predicate CanWriteHost(f: Flags, e: In) { !f.hostBlocked || (f.t2hPending && e.host.writable) }
  predicate CanWriteDriver(f: Flags, e: In) { !f.driverBlocked || (f.h2tPending && e.driver.writable) }

  function LinkT2h(x: Link, e: In): Link { T2h(x, e.driver, CanWriteHost(x.f, e), e.host.sends) }
  predicate LinkStops(x: Link, e: In) { T2hBreaks(x, e.driver, CanWriteHost(x.f, e), e.host.sends) }
  predicate LinkFails(x: Link, r: Recv, e: In) { H2tFails(x, r, CanWriteDriver(x.f, e)) }
  function LinkH2t(x: Link, r: Recv, e: In): Link { H2t(x, r, CanWriteDriver(x.f, e), e.driver.writes) }

  // ---------- rounds ----------

  function LinkAt(s: Sys, d: nat): Link { Link(Get(s, d), s.flags) }
  function PutLink(s: Sys, d: nat, x: Link): Sys { Put(s, d, x.c).(flags := x.f) }

  /** The data connection's turn; a host socket error ends the loop. */
  function Served(s: Sys, d: nat, e: In): Sys {
    var x := LinkT2h(LinkAt(s, d), e);
    if LinkStops(LinkAt(s, d), e) then PutLink(s, d, x)
    else if LinkFails(x, RecvOf(e, d), e) then Closed(PutLink(s, d, x), d)
    else PutLink(s, d, LinkH2t(x, RecvOf(e, d), e))
  }

  /** close_other_data_connection. */
  function TakenOver(s: Sys, i: nat): Sys
    requires i < 2
  {
    (if Get(s, 1 - i).open && Get(s, 1 - i).data then Closed(s, 1 - i) else s).(flags := s.flags.(h2tPending := true))
  }

  /** The management turn of one slot. */
  function Turn(s: Sys, i: nat, r: Recv): Sys
    requires i < 2
  {
    var c := Get(s, i);
    if !c.open || c.data || r == NotReady then s
    else if ReceiveFails(c, r) then Closed(s, i)
    else
      var c1 := Received(c, r);
      var p := PassOver(c1, s.id);
      if p.verdict == Close then Closed(s, i)
      else
        var s1 := Put(s, i, Managed(c1, p));
        if p.verdict == ToData then TakenOver(s1, i) else s1
  }

  /** Only sockets open when select was called are watched. */
  function Watched(s: Sys, i: nat, e: In): Recv { if Get(s, i).open then RecvOf(e, i) else NotReady }

  function AfterAccept(s: Sys, e: In): Sys {
    if s.num < 2 && e.listen && e.socket >= 0 then Accepted(s) else s
  }

  predicate Stops(s: Sys, e: In) { DataSlot(s) >= 0 && LinkStops(LinkAt(AfterAccept(s, e), DataSlot(s)), e) }

  function AfterServe(s: Sys, e: In): Sys {
    if DataSlot(s) >= 0 then Served(AfterAccept(s, e), DataSlot(s), e) else AfterAccept(s, e)
  }

  /** One round of the select loop. */
  function Round(s: Sys, e: In): Sys {
    if Stops(s, e) then AfterServe(s, e)
    else Turn(Turn(AfterServe(s, e), 0, Watched(s, 0, e)), 1, Watched(s, 1, e))
  }

  /** Rounds until the loop stops. */
  function Rounds(s: Sys, es: seq<In>): Sys
    decreases |es|
  {
    if es == [] then s
    else if Stops(s, es[0]) then Round(s, es[0])
    else Rounds(Round(s, es[0]), es[1..])
  }
}
