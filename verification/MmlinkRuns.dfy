/**
  What the debug link server keeps over every run of its select loop, and what it
  does not: which rounds serve the data connection, and when the host is cut off.
 */
module MmlinkRuns {
  import opened Bytes
  import opened MmlinkLines
  import opened MmlinkSpec

  // ---------- the invariant ----------

  /** The commands carried out are those of the lines received before any '|', none
      of them longer than the buffer allows; until there is one, the buffer holds the
      open line. */
  ghost predicate Follows(c: Conn) {
    && ShortLines(BeforePipe(c.past.heard))
    && Exec(c.bound, false, c.past.log)
       == Run(Exec(c.past.alone, false, []), c.past.welcomeId, Lines(BeforePipe(c.past.heard)))
    && (c.data <==> PIPE in c.past.heard) && (!c.data ==> c.h2t == Tail(c.past.heard))
  }

  /** Bytes taken in are the bytes passed on followed by those in the buffer. */
  predicate Conserves(c: Conn) {
    && |c.h2t| <= 3000 && |c.t2h| <= 3000
    && (c.data ==> c.past.h2tIn == c.past.h2tOut + c.h2t)
    && c.past.t2hIn == c.past.t2hOut + c.t2h
  }

  /** An open connection was welcomed under the current handle, and is in data mode
      only if bound. */
  ghost predicate ConnOk(c: Conn, id: nat) {
    if !c.open then c == CLOSED
    else c.past.welcomeId == id && (c.data ==> c.bound) && Conserves(c) && Follows(c)
  }

  /** Flags: bytes for the driver keep h2tPending set, and the driver is marked
      blocked only while there are some. */
  predicate Flagged(f: Flags, c: Conn) {
    c.data ==> (c.h2t != [] ==> f.h2tPending) && (f.driverBlocked ==> c.h2t != [])
  }

  function Count(s: Sys): int { (if s.c0.open then 1 else 0) + (if s.c1.open then 1 else 0) }

  /** num counts the open slots, at most one connection is in data mode, and the id has
      32 bits. */
  predicate Slots(s: Sys) { s.num == Count(s) && !(s.c0.data && s.c1.data) && s.id < 0x1_0000_0000 }

  ghost predicate Inv(s: Sys) {
    && ConnOk(s.c0, s.id) && ConnOk(s.c1, s.id) && Slots(s)
    && Flagged(s.flags, s.c0) && Flagged(s.flags, s.c1) && (s.flags.driverBlocked ==> s.flags.h2tPending)
  }

  // ---------- one connection ----------

  lemma ToHostOk(c: Conn, n: nat, id: nat)
    requires ConnOk(c, id) && c.data && n <= |c.t2h|
    ensures ConnOk(ToHost(c, n), id) && ToHost(c, n).open && ToHost(c, n).data && ToHost(c, n).h2t == c.h2t
  {
    hide Lines, Run, BeforePipe;
    assert c.t2h == c.t2h[..n] + c.t2h[n..];
  }

  lemma ToDriverOk(c: Conn, n: nat, id: nat)
    requires ConnOk(c, id) && c.data && n <= |c.h2t|
    ensures ConnOk(ToDriver(c, n), id) && ToDriver(c, n).open && ToDriver(c, n).data && |ToDriver(c, n).h2t| == |c.h2t| - n
  {
    hide Lines, Run, BeforePipe;
    assert c.h2t == c.h2t[..n] + c.h2t[n..];
  }

  lemma FromDriverOk(c: Conn, bytes: seq<byte>, id: nat)
    requires ConnOk(c, id) && c.data
    ensures ConnOk(FromDriver(c, bytes), id)
    ensures c.open && FromDriver(c, bytes).open && FromDriver(c, bytes).data && FromDriver(c, bytes).h2t == c.h2t
  {
    hide Lines, Run, BeforePipe;
  }

  lemma BeforePipeStep(s: seq<byte>)
    ensures BeforePipe(s) == if s == [] || s[0] == PIPE then [] else [s[0]] + BeforePipe(s[1..])
  {}

  lemma {:induction false} PipePrefix(s: seq<byte>, t: seq<byte>)
    ensures BeforePipe(s + t) == if PIPE in s then BeforePipe(s) else s + BeforePipe(t)
  {
    hide BeforePipe;
    if s == [] {
      assert s + t == t && s + BeforePipe(t) == BeforePipe(t);
    } else {
      BeforePipeStep(s);
      BeforePipeStep(s + t);
      assert (s + t)[0] == s[0] && (s + t)[1..] == s[1..] + t;
      if s[0] != PIPE {
        PipePrefix(s[1..], t);
        assert s == [s[0]] + s[1..];
      }
    }
  }

  /** More bytes for a data connection do not change what it carried out. */
  lemma ReceivedOk(c: Conn, r: Recv, id: nat)
    requires ConnOk(c, id) && c.data
    ensures ConnOk(Received(c, r), id) && Received(c, r).open && Received(c, r).data && |c.h2t| <= |Received(c, r).h2t|
  {
    hide Lines, Run;
    if r.Got? { PipePrefix(c.past.heard, Fitting(r.bytes, |c.h2t|)); }
  }

  /** The pass over the open line and what follows it is the pass over everything
      heard. */
  lemma PassFollows(c: Conn, got: seq<byte>)
    requires !c.data && Follows(c)
    ensures var d := WithHeard(c, got);
            var p := PassOver(d, c.past.welcomeId);
            && p.exec == Run(Exec(c.past.alone, false, []), c.past.welcomeId, Lines(BeforePipe(d.past.heard)))
            && (p.verdict != Close ==> !p.exec.failed && (p.verdict == ToData <==> PIPE in d.past.heard))
            && (p.verdict == Keep ==> p.buf == Tail(d.past.heard))
            && (p.verdict == ToData ==> p.exec.bound && |p.buf| == |d.h2t| > 0)
            && (p.verdict == Close <==> p.exec.failed || (PIPE in d.past.heard && !p.exec.bound))
  {
    hide Lines, Tail, Run, BeforePipe, ShortLines;
    var h, t, g, id := c.past.heard, c.h2t, BeforePipe(got), c.past.welcomeId;
    TailSuffix(h);
    PipePrefix(h, got);
    PipePrefix(t, got);
    LinesAppend(h, g);
    RunAppend(Exec(c.past.alone, false, []), id, Lines(h), Lines(t + g));
    NoPipe(h);
    assert |BeforePipe(t + got)| == |t| + |g| && (|g| < |got| <==> PIPE in got) by { PipeLength(got); }
    assert PIPE in h + got <==> PIPE in got;
    if PIPE !in got { NoPipe(got); }
  }

  lemma PassKeepsShort(c: Conn, got: seq<byte>)
    requires !c.data && Follows(c) && |c.h2t| + |got| <= 3000
    ensures ShortLines(BeforePipe(WithHeard(c, got).past.heard))
  {
    hide Lines, Tail, Run, BeforePipe, ShortLines;
    NoPipe(c.past.heard);
    PipePrefix(c.past.heard, got);
    ShortLinesStay(c.past.heard, BeforePipe(got));
  }

  lemma PipeLength(s: seq<byte>)
    ensures |BeforePipe(s)| < |s| <==> PIPE in s
  {
    if PIPE !in s { NoPipe(s); }
  }

  /** A management turn that does not close the connection. */
  lemma PassOk(c: Conn, got: seq<byte>, id: nat)
    requires ConnOk(c, id) && c.open && !c.data && |c.h2t| + |got| <= 3000
    ensures var d := WithHeard(c, got); var p := PassOver(d, id);
            p.verdict != Close ==> ConnOk(Managed(d, p), id) && (p.verdict == ToData ==> p.buf != [])
  {
    hide Lines, Run, Tail, Manage, BeforePipe, ShortLines;
    var d := WithHeard(c, got);
    PassFollows(c, got);
    PassKeepsShort(c, got);
    KeptFits(d.h2t, Exec(d.bound, false, d.past.log), id);
  }

  lemma KeptFits(buf: seq<byte>, x: Exec, id: nat)
    ensures |Manage(buf, x, id).buf| <= |buf|
  {
    TailSuffix(buf);
  }

  /** What a receive adds. */
  function Arrived(c: Conn, r: Recv): (got: seq<byte>)
    ensures |c.h2t| <= 3000 ==> |c.h2t| + |got| <= 3000
    ensures Received(c, r) == WithHeard(c, got)
  {
    var got := if r.Got? && |c.h2t| < 3000 then Fitting(r.bytes, |c.h2t|) else [];
    assert got == [] ==> WithHeard(c, got) == c;
    got
  }

  // ---------- the server ----------

  function Welcomed(alone: bool, id: nat): Conn {
    CLOSED.(open := true, bound := alone, past := NO_PAST.(alone := alone, welcomeId := id))
  }

  lemma FreshConn(alone: bool, id: nat)
    ensures ConnOk(Welcomed(alone, id), id) && ConnOk(CLOSED, id)
  {
    assert Lines(BeforePipe([])) == [] && Tail([]) == [];
  }

  lemma AcceptKeeps(s: Sys)
    requires Inv(s) && s.num < 2
    ensures Inv(Accepted(s)) && !(s.c0.open && s.c1.open)
  {
    var id := Accepted(s).id;
    FreshConn(s.num == 0, id);
    assert (!s.c0.open ==> s.c0 == CLOSED) && (!s.c1.open ==> s.c1 == CLOSED);
    hide ConnOk;
    assert s.num > 0 ==> id == s.id;
  }

  lemma ClosedKeeps(s: Sys, i: nat)
    requires Inv(s) && i < 2 && Get(s, i).open
    ensures Inv(Closed(s, i))
  {
    hide Follows, Conserves;
  }

  /** The data connection and the flags. */
  ghost predicate LinkOk(x: Link, id: nat) {
    ConnOk(x.c, id) && x.c.open && x.c.data && Flagged(x.f, x.c) && (x.f.driverBlocked ==> x.f.h2tPending)
  }

  lemma LinkAtOk(s: Sys, d: nat)
    requires Inv(s) && d < 2 && Get(s, d).data
    ensures LinkOk(LinkAt(s, d), s.id)
  {}

  lemma PutLinkKeeps(s: Sys, d: nat, x: Link)
    requires Inv(s) && d < 2 && Get(s, d).data && LinkOk(x, s.id)
    ensures Inv(PutLink(s, d, x)) && Get(PutLink(s, d, x), d).open
  {
    hide Follows, Conserves;
  }

  lemma T2hKeeps(x: Link, d: Driver, canWrite: bool, sends: seq<Send>, id: nat)
    requires LinkOk(x, id)
    ensures LinkOk(T2h(x, d, canWrite, sends), id)
  {
    hide ConnOk, FromDriver, ToHost, Taken;
    FromDriverOk(x.c, d.read, id);
    var c := ReadFrom(x.c, d);
    ToHostOk(c, Taken(|c.t2h|, sends), id);
  }

  /** With bytes to send, the driver can be offered them: the early return of
      handle_h2t for a driver that cannot be written is not taken. */
  lemma DriverIsOffered(x: Link, r: Recv, e: In, id: nat)
    requires LinkOk(x, id) && H2tReady(x.f, r, CanWriteDriver(x.f, e))
    ensures CanWriteDriver(x.f, e)
  {}

  lemma H2tKeeps(x: Link, r: Recv, e: In, id: nat)
    requires LinkOk(x, id)
    ensures LinkOk(LinkH2t(x, r, e), id)
  {
    hide ConnOk, Received, ToDriver, Taken;
    ReceivedOk(x.c, r, id);
    var c := Received(x.c, r);
    ToDriverOk(c, Taken(|c.h2t|, Writes(e.driver.writes)), id);
    if H2tReady(x.f, r, CanWriteDriver(x.f, e)) { DriverIsOffered(x, r, e, id); }
  }

  lemma ServedKeeps(s: Sys, d: nat, e: In)
    requires Inv(s) && d < 2 && Get(s, d).data
    ensures Inv(Served(s, d, e))
  {
    hide Inv, LinkOk, LinkT2h, LinkH2t, LinkFails, LinkStops;
    var x := LinkT2h(LinkAt(s, d), e);
    assert LinkOk(x, s.id) by {
      LinkAtOk(s, d);
      LinkT2hKeeps(LinkAt(s, d), e, s.id);
    }
    PutLinkKeeps(s, d, x);
    ClosedKeeps(PutLink(s, d, x), d);
    H2tKeeps(x, RecvOf(e, d), e, s.id);
    PutLinkKeeps(s, d, LinkH2t(x, RecvOf(e, d), e));
  }

  lemma LinkT2hKeeps(x: Link, e: In, id: nat)
    requires LinkOk(x, id)
    ensures LinkOk(LinkT2h(x, e), id)
  {
    T2hKeeps(x, e.driver, CanWriteHost(x.f, e), e.host.sends, id);
  }

  lemma TurnKeeps(s: Sys, i: nat, r: Recv)
    requires Inv(s) && i < 2
    ensures Inv(Turn(s, i, r))
  {
    var c := Get(s, i);
    if c.open && !c.data && r != NotReady {
      ClosedKeeps(s, i);
      if !ReceiveFails(c, r) {
        var got := Arrived(c, r);
        var p := PassOver(WithHeard(c, got), s.id);
        if p.verdict != Close {
          PassOk(c, got, s.id);
          ManagedKeeps(s, i, Managed(WithHeard(c, got), p), p.verdict == ToData);
        }
      }
    }
  }

  lemma ManagedKeeps(s: Sys, i: nat, c: Conn, toData: bool)
    requires Inv(s) && i < 2 && Get(s, i).open && !Get(s, i).data && ConnOk(c, s.id) && c.open
    requires c.data == toData && (toData ==> c.h2t != [])
    ensures var s1 := Put(s, i, c); Inv(if toData then TakenOver(s1, i) else s1)
  {
    hide Follows, Conserves;
  }

  /** Every round keeps the invariant, whatever the outside answers. */
  lemma RoundKeeps(s: Sys, e: In)
    requires Inv(s)
    ensures Inv(Round(s, e))
  {
    hide Inv, Turn, Served, Accepted;
    if s.num < 2 { AcceptKeeps(s); }
    var s1 := AfterAccept(s, e);
    DataSlotIsData(s, e);
    if DataSlot(s) >= 0 { ServedKeeps(s1, DataSlot(s), e); }
    var s2 := AfterServe(s, e);
    TurnKeeps(s2, 0, Watched(s, 0, e));
    TurnKeeps(Turn(s2, 0, Watched(s, 0, e)), 1, Watched(s, 1, e));
  }

  /** A new connection does not disturb the data connection. */
  lemma DataSlotIsData(s: Sys, e: In)
    requires Inv(s)
    ensures var d := DataSlot(s); d >= 0 ==> Get(s, d).data && Get(AfterAccept(s, e), d) == Get(s, d)
  {
    hide Follows, Conserves;
  }

  lemma {:induction false} RoundsKeep(s: Sys, es: seq<In>)
    requires Inv(s)
    ensures Inv(Rounds(s, es))
    decreases |es|
  {
    hide Inv, Round;
    if es != [] {
      RoundKeeps(s, es[0]);
      if !Stops(s, es[0]) { RoundsKeep(Round(s, es[0]), es[1..]); }
    }
  }

  lemma Reachable(es: seq<In>)
    ensures Inv(Rounds(INITIAL, es))
  {
    RoundsKeep(INITIAL, es);
  }

  /** In every reachable state: the count is the number of open slots, so accepting
      always finds one; at most one connection is in data mode; data mode needs a
      bound connection, and that needs to have been alone or to have sent the exact
      current handle; no byte is lost or reordered in either direction. */
  lemma StateInOrder(es: seq<In>, s: Sys, i: nat)
    requires s == Rounds(INITIAL, es) && i < 2
    ensures s.num == Count(s) && (s.num < 2 ==> !(s.c0.open && s.c1.open)) && !(s.c0.data && s.c1.data)
    ensures var c := Get(s, i);
            && (c.data ==> c.bound) && (c.bound ==> c.open) && (c.open ==> c.past.welcomeId == s.id)
            && (c.bound ==> c.past.alone || HandleCommand(s.id) in c.past.log)
            && Conserves(c) && Flagged(s.flags, c)
  {
    Reachable(es);
    var c := Get(s, i);
    if c.open { RunMeaning(Exec(c.past.alone, false, []), s.id, Lines(BeforePipe(c.past.heard))); }
  }

  /** The handle changes only in a round that starts with no connection open. */
  lemma HandleIsStable(es: seq<In>, s: Sys, e: In)
    requires s == Rounds(INITIAL, es) && Round(s, e).id != s.id
    ensures !s.c0.open && !s.c1.open
  {
    Reachable(es);
    TurnLeavesId(AfterServe(s, e), 0, Watched(s, 0, e));
    TurnLeavesId(Turn(AfterServe(s, e), 0, Watched(s, 0, e)), 1, Watched(s, 1, e));
    ServeLeavesId(s, e);
    hide Turn, AfterServe, ConnOk, Rounds;
  }

  lemma ServeLeavesId(s: Sys, e: In)
    ensures AfterServe(s, e).id == AfterAccept(s, e).id
  {
    hide AfterAccept, LinkT2h, LinkH2t, LinkFails, LinkStops;
  }

  lemma TurnLeavesId(s: Sys, i: nat, r: Recv)
    requires i < 2
    ensures Turn(s, i, r).id == s.id
  {
    hide PassOver, Received, Managed;
  }

  // ---------- which rounds serve the data connection ----------

  /** The data connection is in slot 1 and slot 0 is closed. */
  predicate Missed(s: Sys) { s.c1.data && !s.c0.open }

  /** In every reachable state a round takes the data connection's turn if and only
      if that is not in slot 1 with slot 0 closed. */
  lemma ServedIffNotMissed(es: seq<In>, s: Sys)
    requires s == Rounds(INITIAL, es) && (s.c0.data || s.c1.data)
    ensures DataSlot(s) >= 0 <==> !Missed(s)
    ensures DataSlot(s) >= 0 ==> Get(s, DataSlot(s)).data
  {
    Reachable(es);
  }

  /** When the turn is taken and the driver can be written, the driver is offered
      the buffered bytes: what it takes leaves the buffer from the front. */
  lemma ServedBytesAreOffered(es: seq<In>, s: Sys, e: In)
    requires s == Rounds(INITIAL, es) && DataSlot(s) >= 0 && CanWriteDriver(s.flags, e) && !Stops(s, e)
    requires var c := Get(s, DataSlot(s)); c.h2t != [] && !ReceiveFails(c, RecvOf(e, DataSlot(s)))
    ensures var d := DataSlot(s);
            var c := Received(Get(s, d), RecvOf(e, d));
            var n := Taken(|c.h2t|, Writes(e.driver.writes));
            var c' := Get(AfterServe(s, e), d);
            && c'.h2t == c.h2t[n..] && c'.past.h2tOut == c.past.h2tOut + c.h2t[..n]
            && (n > 0 <==> e.driver.writes != [] && e.driver.writes[0] > 0)
  {
    Reachable(es);
    var d := DataSlot(s);
    DataSlotIsData(s, e);
    LinkAtOk(s, d);
    OfferedInTurn(LinkAt(s, d), RecvOf(e, d), e);
    hide Inv, ConnOk, LinkT2h, LinkH2t, LinkFails, LinkStops, Received, Taken;
  }

  lemma OfferedInTurn(x: Link, r: Recv, e: In)
    requires x.c.h2t != [] && x.f.h2tPending && CanWriteDriver(x.f, e) && !ReceiveFails(x.c, r)
    ensures var c := Received(x.c, r);
            var n := Taken(|c.h2t|, Writes(e.driver.writes));
            var x1 := LinkT2h(x, e);
            var c' := LinkH2t(x1, r, e).c;
            && !LinkFails(x1, r, e) && c'.h2t == c.h2t[n..] && c'.past.h2tOut == c.past.h2tOut + c.h2t[..n]
            && (n > 0 <==> e.driver.writes != [] && e.driver.writes[0] > 0)
  {
    T2hLeavesH2t(x, e);
    var y := LinkT2h(x, e);
    hide LinkT2h, T2h, Taken;
    ReceivedAlike(x.c, y.c, r);
    hide Received, ReceiveFails;
    TakesSome(|Received(x.c, r).h2t|, e.driver.writes);
  }

  lemma ReceivedAlike(c: Conn, d: Conn, r: Recv)
    requires d.h2t == c.h2t && d.past.h2tOut == c.past.h2tOut
    ensures ReceiveFails(d, r) == ReceiveFails(c, r) && |Received(c, r).h2t| >= |c.h2t|
    ensures Received(d, r).h2t == Received(c, r).h2t && Received(d, r).past.h2tOut == Received(c, r).past.h2tOut
  {}

  lemma TakesSome(len: nat, writes: seq<nat>)
    requires len > 0
    ensures Taken(len, Writes(writes)) > 0 <==> writes != [] && writes[0] > 0
  {}

  lemma T2hLeavesH2t(x: Link, e: In)
    ensures var y := LinkT2h(x, e);
            && y.c.h2t == x.c.h2t && y.c.past.h2tOut == x.c.past.h2tOut
            && y.f.h2tPending == x.f.h2tPending && y.f.driverBlocked == x.f.driverBlocked
  {}

  /** A missed data connection is left exactly as it is, and the next round misses
      it too unless a client is accepted. */
  lemma MissedWaits(s: Sys, e: In)
    requires Inv(s) && Missed(s)
    ensures Round(s, e).c1 == s.c1 && !Stops(s, e)
    ensures Missed(Round(s, e)) <==> !(e.listen && e.socket >= 0)
    ensures e.listen && e.socket >= 0 ==> DataSlot(Round(s, e)) == 1
  {
    assert s.c1.open;
    hide ConnOk;
  }

  /** Its bytes wait through every run in which no client is accepted. */
  lemma {:induction false} MissedWaitsOn(s: Sys, es: seq<In>)
    requires Inv(s) && Missed(s) && forall e | e in es :: !(e.listen && e.socket >= 0)
    ensures Missed(Rounds(s, es)) && Rounds(s, es).c1 == s.c1
    decreases |es|
  {
    hide Inv, Round, Stops;
    if es != [] {
      MissedWaits(s, es[0]);
      RoundKeeps(s, es[0]);
      MissedWaitsOn(Round(s, es[0]), es[1..]);
    }
  }

  /** Accepting a client rescues them: the round after it offers them again. */
  lemma AcceptRescues(s: Sys, e: In, e': In)
    requires Inv(s) && Missed(s) && e.listen && e.socket >= 0 && s.c1.h2t != []
    requires CanWriteDriver(s.flags, e') && !LinkStops(LinkAt(s, 1), e') && !ReceiveFails(s.c1, e'.r1)
    requires e'.driver.writes != [] && e'.driver.writes[0] > 0
    ensures |Get(AfterServe(Round(s, e), e'), 1).past.h2tOut| > |s.c1.past.h2tOut|
  {
    MissedWaits(s, e);
    MissedFlags(s, e);
    LinkAtOk(s, 1);
    OfferedInTurn(LinkAt(s, 1), e'.r1, e');
    var s1 := Round(s, e);
    RoundKeeps(s, e);
    DataSlotIsData(s1, e');
    hide Inv, ConnOk, Round, LinkT2h, LinkH2t, LinkFails, LinkStops, Taken;
  }

  lemma MissedFlags(s: Sys, e: In)
    requires Inv(s) && Missed(s)
    ensures Round(s, e).flags == s.flags
  {
    assert s.c1.open;
    hide ConnOk;
  }

  // ---------- runs, concretely ----------

  const SILENT := In(false, -1, NotReady, NotReady, Driver(false, [], false, []), Host(false, []))
  const CLIENT := SILENT.(listen := true, socket := 0)

  lemma RoundsCons(s: Sys, e: In, es: seq<In>)
    requires !Stops(s, e)
    ensures Rounds(s, [e] + es) == Rounds(Round(s, e), es)
  {
    assert ([e] + es)[1..] == es;
  }

  lemma FirstClient()
    ensures var s := Round(INITIAL, CLIENT);
            s == Sys(1, 1, Welcomed(true, 1), CLOSED, INITIAL.flags) && !Stops(INITIAL, CLIENT)
  {}

  lemma SecondClient()
    ensures var s := Sys(1, 1, Welcomed(true, 1), CLOSED, INITIAL.flags);
            Round(s, CLIENT) == Sys(1, 2, Welcomed(true, 1), Welcomed(false, 1), INITIAL.flags) && !Stops(s, CLIENT)
  {}

  /** Two clients; the second sends the handle and a '|', then the first hangs up:
      the data connection is missed, with bytes in its buffer. */
  lemma MissedIsReachable() returns (es: seq<In>)
    ensures var s := Rounds(INITIAL, es); Missed(s) && s.c1.h2t != [] && DataSlot(s) < 0 && s.flags.h2tPending
  {
    var bytes := HandleCommand(1) + [10, PIPE];
    var e3, e4 := SILENT.(r1 := Got(bytes)), SILENT.(r0 := Failed);
    var s2 := Sys(1, 2, Welcomed(true, 1), Welcomed(false, 1), INITIAL.flags);
    var s3 := Round(s2, e3);
    FirstClient();
    SecondClient();
    SecondTakesData(bytes, s2, s3);
    FirstHangsUp(s3);
    var s4 := Round(s3, e4);
    RoundsCons(s3, e4, []);
    RoundsCons(s2, e3, [e4]);
    RoundsCons(Sys(1, 1, Welcomed(true, 1), CLOSED, INITIAL.flags), CLIENT, [e3] + [e4]);
    RoundsCons(INITIAL, CLIENT, [CLIENT] + ([e3] + [e4]));
    es := [CLIENT] + ([CLIENT] + ([e3] + [e4]));
    assert [e4] + [] == [e4];
    hide Round;
  }

  lemma SecondTakesData(bytes: seq<byte>, s2: Sys, s3: Sys)
    requires bytes == HandleCommand(1) + [10, PIPE]
    requires s2 == Sys(1, 2, Welcomed(true, 1), Welcomed(false, 1), INITIAL.flags)
    requires s3 == Round(s2, SILENT.(r1 := Got(bytes)))
    ensures !Stops(s2, SILENT.(r1 := Got(bytes)))
    ensures s3.num == 2 && s3.c0 == s2.c0 && s3.c1.open && s3.c1.data && s3.c1.h2t != []
    ensures s3.flags == INITIAL.flags.(h2tPending := true)
  {
    HandleConn(bytes);
    hide Received, ReceiveFails, PassOver, Managed, HandleCommand, Served;
  }

  lemma HandleConn(bytes: seq<byte>)
    requires bytes == HandleCommand(1) + [10, PIPE]
    ensures var c := Welcomed(false, 1);
            var d := Received(c, Got(bytes));
            var p := PassOver(d, 1);
            && !ReceiveFails(c, Got(bytes)) && p.verdict == ToData
            && Managed(d, p).open && Managed(d, p).data && Managed(d, p).h2t != []
  {
    HandleThenPipe(1);
    HandleLength(1);
    hide Manage, HandleCommand, Received, ReceiveFails;
    FirstReceive(false, bytes);
  }

  lemma FirstReceive(alone: bool, bytes: seq<byte>)
    requires 0 < |bytes| <= 3000
    ensures var c := Welcomed(alone, 1);
            var d := Received(c, Got(bytes));
            && !ReceiveFails(c, Got(bytes)) && d.open && !d.data && d.bound == alone && d.past.log == [] && d.h2t == bytes
  {
    assert Fitting(bytes, 0) == bytes && [] + bytes == bytes;
  }

  lemma HandleLength(id: nat)
    ensures |HandleCommand(id)| == 15
  {}

  lemma FirstHangsUp(s: Sys)
    requires s.num == 2 && s.c0 == Welcomed(true, 1) && s.c1.open && s.c1.data && s.c1.h2t != []
    requires s.flags == INITIAL.flags.(h2tPending := true)
    ensures var e := SILENT.(r0 := Failed); var s' := Round(s, e);
            !Stops(s, e) && Missed(s') && s'.c1.h2t != [] && DataSlot(s') < 0 && s'.flags.h2tPending
  {
    assert Taken(|s.c1.h2t|, Writes([])) == 0;
    assert s.c1.h2t[0..] == s.c1.h2t;
  }

  // ---------- when the host is cut off ----------

  predicate CutOff(s: Sys) { s.flags.hostBlocked && !s.flags.t2hPending }

  /** The host socket is then not watched, so no round changes it. */
  lemma CutOffStays(s: Sys, e: In)
    requires CutOff(s)
    ensures CutOff(Round(s, e)) && Round(s, e).flags.hostGot == s.flags.hostGot
  {
    if DataSlot(s) >= 0 {
      CutOffLink(LinkAt(AfterAccept(s, e), DataSlot(s)), RecvOf(e, DataSlot(s)), e);
    }
    var s2 := AfterServe(s, e);
    assert CutOff(s2) && s2.flags.hostGot == s.flags.hostGot by { hide LinkT2h, LinkH2t, LinkFails, LinkStops; }
    TurnLeavesHost(s2, 0, Watched(s, 0, e));
    TurnLeavesHost(Turn(s2, 0, Watched(s, 0, e)), 1, Watched(s, 1, e));
    hide AfterServe, Turn;
  }

  ghost predicate SameHost(f: Flags, f': Flags) {
    f'.hostBlocked == f.hostBlocked && f'.t2hPending == f.t2hPending && f'.hostGot == f.hostGot
  }

  lemma CutOffLink(x: Link, r: Recv, e: In)
    requires x.f.hostBlocked && !x.f.t2hPending
    ensures SameHost(x.f, LinkT2h(x, e).f) && SameHost(x.f, LinkH2t(LinkT2h(x, e), r, e).f)
  {
    hide FromDriver, Received, ToDriver, Taken, Writes;
  }

  lemma TurnLeavesHost(s: Sys, i: nat, r: Recv)
    requires i < 2
    ensures SameHost(s.flags, Turn(s, i, r).flags)
  {
    hide PassOver, Received, Managed;
  }

  lemma {:induction false} CutOffForever(s: Sys, es: seq<In>)
    requires CutOff(s)
    ensures CutOff(Rounds(s, es)) && Rounds(s, es).flags.hostGot == s.flags.hostGot
    decreases |es|
  {
    hide Round, Stops;
    if es != [] {
      CutOffStays(s, es[0]);
      if !Stops(s, es[0]) { CutOffForever(Round(s, es[0]), es[1..]); }
    }
  }

  /** One client becomes the data connection; the driver has a byte for it, and the
      first send takes nothing while t2hPending is clear. */
  lemma CutOffIsReachable() returns (es: seq<In>)
    ensures CutOff(Rounds(INITIAL, es)) && DataSlot(Rounds(INITIAL, es)) >= 0
  {
    var e2, e3 := SILENT.(r0 := Got([PIPE])), SILENT.(driver := Driver(true, [1], false, []));
    var s1 := Sys(1, 1, Welcomed(true, 1), CLOSED, INITIAL.flags);
    var s2 := Round(s1, e2);
    FirstClient();
    FirstTakesData(s1, s2);
    FirstSendTakesNothing(s2);
    RoundsCons(s2, e3, []);
    RoundsCons(s1, e2, [e3]);
    RoundsCons(INITIAL, CLIENT, [e2] + [e3]);
    es := [CLIENT] + ([e2] + [e3]);
    assert [e3] + [] == [e3];
    hide Round;
  }

  lemma FirstTakesData(s1: Sys, s2: Sys)
    requires s1 == Sys(1, 1, Welcomed(true, 1), CLOSED, INITIAL.flags)
    requires s2 == Round(s1, SILENT.(r0 := Got([PIPE])))
    ensures !Stops(s1, SILENT.(r0 := Got([PIPE])))
    ensures s2.num == 1 && s2.c0.open && s2.c0.data && s2.c0.t2h == [] && !s2.c1.open
    ensures s2.flags == INITIAL.flags.(h2tPending := true)
  {
    assert BeforePipe([PIPE]) == [];
    assert Fitting([PIPE], 0) == [PIPE] && [] + [PIPE] == [PIPE];
    assert Manage([PIPE], Exec(true, false, []), 1).verdict == ToData;
    hide Manage;
  }

  lemma FirstSendTakesNothing(s: Sys)
    requires s.num == 1 && s.c0.open && s.c0.data && s.c0.t2h == [] && !s.c1.open
    requires s.flags == INITIAL.flags.(h2tPending := true)
    ensures var e := SILENT.(driver := Driver(true, [1], false, []));
            !Stops(s, e) && CutOff(Round(s, e)) && DataSlot(Round(s, e)) >= 0
  {
    var e := SILENT.(driver := Driver(true, [1], false, []));
    var x := LinkAt(s, 0);
    assert Fitting([1], 0) == [1];
    assert LinkT2h(x, e).f.hostBlocked && !LinkT2h(x, e).f.t2hPending && LinkT2h(x, e).c.data;
    assert LinkH2t(LinkT2h(x, e), NotReady, e).c.data;
  }

  /** From any reachable state with a served data connection, some continuation gets
      a byte to the host if and only if the host is not cut off. */
  lemma HostIsReachedIffNotCutOff(es: seq<In>, s: Sys)
    requires s == Rounds(INITIAL, es) && DataSlot(s) >= 0
    ensures (exists more :: |Rounds(s, more).flags.hostGot| > |s.flags.hostGot|) <==> !CutOff(s)
  {
    if CutOff(s) {
      forall more ensures Rounds(s, more).flags.hostGot == s.flags.hostGot { CutOffForever(s, more); }
    } else {
      Reachable(es);
      var e := SILENT.(driver := Driver(true, [0], false, []), host := Host(true, [Took(1)]));
      DataSlotIsData(s, e);
      OneByteGetsThrough(s, e);
      RoundsCons(s, e, []);
      assert |Rounds(s, [e] + []).flags.hostGot| > |s.flags.hostGot|;
    }
  }

  lemma OneByteGetsThrough(s: Sys, e: In)
    requires !CutOff(s) && DataSlot(s) >= 0
    requires e == SILENT.(driver := Driver(true, [0], false, []), host := Host(true, [Took(1)]))
    ensures !Stops(s, e) && |Round(s, e).flags.hostGot| > |s.flags.hostGot|
  {
    var d := DataSlot(s);
    SendsOne(LinkAt(s, d), e);
    var s2 := AfterServe(s, e);
    assert |s2.flags.hostGot| > |s.flags.hostGot| by { hide LinkT2h, LinkH2t, LinkFails, LinkStops; }
    TurnLeavesHost(s2, 0, Watched(s, 0, e));
    TurnLeavesHost(Turn(s2, 0, Watched(s, 0, e)), 1, Watched(s, 1, e));
    hide AfterServe, Turn, LinkStops;
  }

  lemma SendsOne(x: Link, e: In)
    requires !(x.f.hostBlocked && !x.f.t2hPending)
    requires e == SILENT.(driver := Driver(true, [0], false, []), host := Host(true, [Took(1)]))
    ensures var y := LinkT2h(x, e);
            && |y.f.hostGot| == |x.f.hostGot| + 1 && LinkH2t(y, NotReady, e).f.hostGot == y.f.hostGot
            && !LinkStops(x, e)
  {
    var c := FromDriver(x.c, [0]);
    assert c.t2h != [];
    assert Taken(|c.t2h|, [Took(1)]) == 1;
    assert !Breaks(|c.t2h|, [Took(1)]);
    hide FromDriver, ToHost, ToDriver, Taken, Received;
  }

  // ---------- a full buffer ----------

  /** A management connection whose buffer is full of one open line. */
  predicate Jammed(c: Conn) { c.open && !c.data && |c.h2t| == 3000 }

  lemma JammedTurn(s: Sys, i: nat, r: Recv)
    requires Inv(s) && i < 2 && Jammed(Get(s, i))
    ensures Turn(s, i, r) == s
  {
    JammedConn(Get(s, i), r, s.id);
    hide Inv, PassOver, Received, ReceiveFails, Managed;
  }

  lemma JammedConn(c: Conn, r: Recv, id: nat)
    requires ConnOk(c, id) && Jammed(c)
    ensures Received(c, r) == c && !ReceiveFails(c, r)
    ensures PassOver(c, id).verdict == Keep && Managed(c, PassOver(c, id)) == c
  {
    TailSuffix(c.past.heard);
    TailIsOpen(c.past.heard);
    hide Lines, Run, BeforePipe, Tail;
    FullBufferJams(c.h2t, Exec(c.bound, false, c.past.log), id);
    hide Manage;
  }

  /** Nothing a round does touches it, whatever the outside answers. */
  lemma JammedStays(s: Sys, e: In, i: nat)
    requires Inv(s) && i < 2 && Jammed(Get(s, i))
    ensures Get(Round(s, e), i) == Get(s, i)
  {
    ServeSparesJammed(s, e, i);
    var s2 := AfterServe(s, e);
    hide AfterServe, Turn, Inv;
    TurnKeeps(s2, 0, Watched(s, 0, e));
    TurnSparesJammed(s2, 0, Watched(s, 0, e), i);
    TurnSparesJammed(Turn(s2, 0, Watched(s, 0, e)), 1, Watched(s, 1, e), i);
  }

  lemma ServeSparesJammed(s: Sys, e: In, i: nat)
    requires Inv(s) && i < 2 && Jammed(Get(s, i))
    ensures Inv(AfterServe(s, e)) && Get(AfterServe(s, e), i) == Get(s, i)
  {
    if s.num < 2 { AcceptKeeps(s); }
    DataSlotIsData(s, e);
    var s1 := AfterAccept(s, e);
    AcceptSparesOpen(s, e, i);
    assert Inv(s1);
    hide Inv, AfterAccept, Served;
    if DataSlot(s) >= 0 {
      ServedKeeps(s1, DataSlot(s), e);
      ServedSparesOther(s1, DataSlot(s), e);
    }
  }

  lemma AcceptSparesOpen(s: Sys, e: In, i: nat)
    requires i < 2 && Get(s, i).open
    ensures Get(AfterAccept(s, e), i) == Get(s, i)
  {}

  lemma ServedSparesOther(s: Sys, d: nat, e: In)
    requires d < 2
    ensures Get(Served(s, d, e), 1 - d) == Get(s, 1 - d)
  {
    hide LinkT2h, LinkH2t, LinkFails, LinkStops;
  }

  lemma TurnSparesJammed(s: Sys, j: nat, r: Recv, i: nat)
    requires Inv(s) && i < 2 && j < 2 && Jammed(Get(s, i))
    ensures Get(Turn(s, j, r), i) == Get(s, i)
  {
    if i == j { JammedTurn(s, i, r); }
    hide Inv, PassOver, Received, Managed;
  }

  /** A jammed connection stays exactly as it is in every run. */
  lemma {:induction false} JammedForever(s: Sys, es: seq<In>, i: nat)
    requires Inv(s) && i < 2 && Jammed(Get(s, i))
    ensures Get(Rounds(s, es), i) == Get(s, i)
    decreases |es|
  {
    hide Inv, Round, Stops;
    if es != [] {
      JammedStays(s, es[0], i);
      RoundKeeps(s, es[0]);
      if !Stops(s, es[0]) { JammedForever(Round(s, es[0]), es[1..], i); }
    }
  }

  /** In every reachable state a management connection is jammed if and only if it has
      received a line of 3000 bytes, and a client that sends a longer line is heard no
      further than into it, however its bytes are received. */
  lemma JammedIffLongLine(es: seq<In>, s: Sys, i: nat)
    requires s == Rounds(INITIAL, es) && i < 2 && Get(s, i).open && !Get(s, i).data
    ensures Jammed(Get(s, i)) <==> HasLongLine(Get(s, i).past.heard)
    ensures forall stream, n | Get(s, i).past.heard <= stream && 0 <= n <= |stream| && |Tail(stream[..n])| >= 3000 ::
              |Get(s, i).past.heard| <= n
  {
    Reachable(es);
    var c := Get(s, i);
    NoPipe(c.past.heard);
    hide Rounds, Lines, Tail, Run, BeforePipe;
    forall stream, n | c.past.heard <= stream && 0 <= n <= |stream| && |Tail(stream[..n])| >= 3000
      ensures |c.past.heard| <= n
    {
      StopsInLongLine(c.past.heard, stream, n);
    }
  }

  /** One client that sends any 3000 ordinary bytes reaches it. */
  lemma JammedIsReachable(bytes: seq<byte>) returns (es: seq<In>)
    requires |bytes| == 3000 && forall c | c in bytes :: !IsEol(c) && c != PIPE
    ensures Jammed(Rounds(INITIAL, es).c0) && Rounds(INITIAL, es).c0.h2t == bytes
  {
    var e2 := SILENT.(r0 := Got(bytes));
    var s1 := Sys(1, 1, Welcomed(true, 1), CLOSED, INITIAL.flags);
    FirstClient();
    LongLineArrives(bytes, s1);
    RoundsCons(s1, e2, []);
    RoundsCons(INITIAL, CLIENT, [e2]);
    es := [CLIENT] + [e2];
    assert [e2] + [] == [e2];
    hide Round;
  }

  lemma LongLineArrives(bytes: seq<byte>, s: Sys)
    requires |bytes| == 3000 && forall c | c in bytes :: !IsEol(c) && c != PIPE
    requires s == Sys(1, 1, Welcomed(true, 1), CLOSED, INITIAL.flags)
    ensures var e := SILENT.(r0 := Got(bytes));
            !Stops(s, e) && Jammed(Round(s, e).c0) && Round(s, e).c0.h2t == bytes
  {
    LongLineConn(bytes);
    hide Received, ReceiveFails, PassOver, Managed, Served;
  }

  lemma LongLineConn(bytes: seq<byte>)
    requires |bytes| == 3000 && forall c | c in bytes :: !IsEol(c) && c != PIPE
    ensures var c := Welcomed(true, 1);
            var d := Received(c, Got(bytes));
            var p := PassOver(d, 1);
            && !ReceiveFails(c, Got(bytes)) && p.verdict == Keep
            && Managed(d, p).open && !Managed(d, p).data && Managed(d, p).h2t == bytes
  {
    NoEol(bytes);
    FullBufferJams(bytes, Exec(true, false, []), 1);
    hide Manage, Received, ReceiveFails;
    FirstReceive(true, bytes);
  }

  // ---------- what a connection has carried out ----------

  /** The first command decides whether a connection may go on. */
  predicate Allowed(alone: bool, id: nat, cmds: seq<seq<byte>>) {
    alone || cmds == [] || cmds[0] == HandleCommand(id)
  }

  /** In every reachable state an open connection has carried out, in order, exactly
      the non-empty lines of everything it received (before the '|', if it is the
      data connection), however that was cut into receives; it is bound if it was
      alone or has sent the handle first. */
  lemma CommandsOfConnection(es: seq<In>, s: Sys, i: nat)
    requires s == Rounds(INITIAL, es) && i < 2 && Get(s, i).open
    ensures var c := Get(s, i);
            var cmds := Commands(Lines(BeforePipe(c.past.heard)));
            && c.past.log == cmds && Allowed(c.past.alone, s.id, cmds)
            && (c.bound <==> c.past.alone || cmds != [])
            && (!c.data ==> PIPE !in c.past.heard && c.h2t == Tail(c.past.heard))
  {
    Reachable(es);
    var c := Get(s, i);
    RunMeaning(Exec(c.past.alone, false, []), s.id, Lines(BeforePipe(c.past.heard)));
  }

  /** A management turn closes the connection exactly when there is room and recv
      fails or finds the peer gone, when the first command is not allowed, or when a '|' comes before it is bound; and a '|'
      makes it the data connection otherwise. */
  lemma TurnOutcome(s: Sys, i: nat, r: Recv)
    requires Inv(s) && i < 2 && Get(s, i).open && !Get(s, i).data && r != NotReady
    ensures var c := Get(s, i);
            var heard := Received(c, r).past.heard;
            var cmds := Commands(Lines(BeforePipe(heard)));
            var c' := Get(Turn(s, i, r), i);
            && (!c'.open <==> || (|c.h2t| < 3000 && (r == Failed || r == Got([])))
                              || !Allowed(c.past.alone, s.id, cmds)
                              || (PIPE in heard && !c.past.alone && cmds == []))
            && (c'.open ==> c'.past.heard == heard && c'.past.log == cmds && (c'.data <==> PIPE in heard))
  {
    var c := Get(s, i);
    TurnOutcomeConn(c, r, s.id);
    assert ReceiveFails(c, r) <==> |c.h2t| < 3000 && (r == Failed || r == Got([]));
    hide Inv, Received, ReceiveFails, PassOver, Lines, BeforePipe, Commands, Allowed;
  }

  lemma TurnOutcomeConn(c: Conn, r: Recv, id: nat)
    requires ConnOk(c, id) && c.open && !c.data
    ensures var d := Received(c, r);
            var cmds := Commands(Lines(BeforePipe(d.past.heard)));
            var p := PassOver(d, id);
            && (p.verdict == Close <==> !Allowed(c.past.alone, id, cmds) || (PIPE in d.past.heard && !c.past.alone && cmds == []))
            && (p.verdict != Close ==> p.exec.log == cmds && (p.verdict == ToData <==> PIPE in d.past.heard))
            && !d.data && d.open
  {
    var got := Arrived(c, r);
    hide Manage, Run, Lines, BeforePipe, Commands, Tail, ShortLines, Received;
    PassFollows(c, got);
    RunMeaning(Exec(c.past.alone, false, []), id, Lines(BeforePipe(WithHeard(c, got).past.heard)));
  }

  /** Management turns of one slot, one receive each. */
  function Turns(s: Sys, i: nat, chunks: seq<seq<byte>>): Sys
    requires i < 2
    decreases |chunks|
  {
    if chunks == [] then s else Turns(Turn(s, i, Got(chunks[0])), i, chunks[1..])
  }

  /** Every receive gives something and fits the buffer. */
  ghost predicate Fit(buf: seq<byte>, x: Exec, id: nat, chunks: seq<seq<byte>>)
    decreases |chunks|
  {
    chunks != [] ==>
      && 0 < |chunks[0]| <= 3000 - |buf|
      && var p := Manage(buf + chunks[0], x, id); p.verdict == Keep ==> Fit(p.buf, p.exec, id, chunks[1..])
  }

  lemma OneChunk(s: Sys, i: nat, chunk: seq<byte>)
    requires Inv(s) && i < 2 && Get(s, i).open && !Get(s, i).data
    requires PIPE !in chunk && 0 < |chunk| <= 3000 - |Get(s, i).h2t|
    ensures var c := Get(s, i);
            var p := Manage(c.h2t + chunk, Exec(c.bound, false, c.past.log), s.id);
            var c', s' := Get(Turn(s, i, Got(chunk)), i), Turn(s, i, Got(chunk));
            && s'.id == s.id && p.verdict != ToData
            && (if p.verdict == Keep then c'.open && !c'.data && c'.h2t == p.buf && Exec(c'.bound, false, c'.past.log) == p.exec
                else !c'.open)
  {
    ChunkConn(Get(s, i), chunk, s.id);
    hide Inv, Manage, Received, ReceiveFails;
  }

  lemma ChunkConn(c: Conn, chunk: seq<byte>, id: nat)
    requires ConnOk(c, id) && c.open && !c.data && PIPE !in chunk && 0 < |chunk| <= 3000 - |c.h2t|
    ensures var d := Received(c, Got(chunk));
            && d == WithHeard(c, chunk) && !ReceiveFails(c, Got(chunk))
            && PassOver(d, id).verdict != ToData && !PassOver(d, id).exec.failed == (PassOver(d, id).verdict == Keep)
  {
    assert Fitting(chunk, |c.h2t|) == chunk;
    PassFollows(c, chunk);
    hide Manage, Lines, Tail, Run, BeforePipe;
  }

  lemma {:induction false} ClosedStays(s: Sys, i: nat, chunks: seq<seq<byte>>)
    requires i < 2 && !Get(s, i).open
    ensures Turns(s, i, chunks) == s
    decreases |chunks|
  {
    if chunks != [] { ClosedStays(s, i, chunks[1..]); }
  }

  /** However a stream without '|' is cut into receives that fit, the turns of a
      connection end as receiving and passing over it in turn does. */
  lemma {:induction false} TurnsAreConverse(s: Sys, i: nat, chunks: seq<seq<byte>>)
    requires Inv(s) && i < 2 && Get(s, i).open && !Get(s, i).data && PIPE !in Concat(chunks)
    requires Fit(Get(s, i).h2t, Exec(Get(s, i).bound, false, Get(s, i).past.log), s.id, chunks)
    ensures var c := Get(s, i);
            var q := Converse(c.h2t, Exec(c.bound, false, c.past.log), s.id, chunks);
            var c' := Get(Turns(s, i, chunks), i);
            if q.verdict == Keep then c'.open && !c'.data && c'.h2t == q.buf && Exec(c'.bound, false, c'.past.log) == q.exec
            else !c'.open
    decreases |chunks|
  {
    hide Inv, Turn, Manage;
    if chunks != [] {
      OneChunk(s, i, chunks[0]);
      var s' := Turn(s, i, Got(chunks[0]));
      TurnKeeps(s, i, Got(chunks[0]));
      if Get(s', i).open { TurnsAreConverse(s', i, chunks[1..]); } else { ClosedStays(s', i, chunks[1..]); }
    }
  }
}
