/**
  The debug link server: a select loop over two connection slots.  What select
  reports and what the sockets and the driver answer is a parameter; every method
  is proved to do what the server on values does.
 */
module MmlinkServer {
  import opened Bytes
  import opened MmlinkSpec
  import opened MmlinkRuns
  import opened MmlinkConnection

  class Server {
    const conn: seq<Connection>
    var serverId: nat
    var num: int
    var t2hPending: bool
    var h2tPending: bool
    var driverBlocked: bool
    var hostBlocked: bool
    var hostGot: seq<byte>       // bytes sent to hosts so far
    var driverGot: seq<byte>     // and to the driver

    ghost function Foot(): set<object>
      requires |conn| == 2
    {
      {conn[0], conn[1], conn[0].h2t, conn[0].t2h, conn[1].h2t, conn[1].t2h}
    }

    ghost predicate Valid()
      reads this, conn
    {
      && |conn| == 2 && conn[0] != conn[1]
      && conn[0].h2t != conn[1].h2t && conn[0].h2t != conn[1].t2h
      && conn[0].t2h != conn[1].h2t && conn[0].t2h != conn[1].t2h
      && conn[0].Valid() && conn[1].Valid()
    }

    ghost function FlagsNow(): Flags
      reads this
    {
      Flags(t2hPending, h2tPending, driverBlocked, hostBlocked, hostGot, driverGot)
    }

    /** The server as a value. */
    ghost function Abs(): Sys
      requires Valid()
      reads this, conn, if |conn| == 2 then Foot() else {}
    {
      Sys(serverId, num, conn[0].Abs(), conn[1].Abs(), FlagsNow())
    }

    constructor ()
      ensures Valid() && Abs() == INITIAL && fresh(Foot())
    {
      var c0 := new Connection();
      var c1 := new Connection();
      conn := [c0, c1];
      serverId, num, hostGot, driverGot := 0, 0, [], [];
      t2hPending, h2tPending, driverBlocked, hostBlocked := false, false, false, false;
    }

    /** get_data_connection. */
    method GetDataConnection() returns (d: int)
      requires Valid() && num <= 2
      ensures d == DataSlot(Abs())
    {
      var i := 0;
      while i < num
        invariant 0 <= i <= 2 && forall j | 0 <= j < i :: !conn[j].data
      {
        if conn[i].data { return i; }
        i := i + 1;
      }
      return -1;
    }

    method GetUnusedConnection() returns (j: int)
      requires Valid()
      ensures -1 <= j < 2 && (j >= 0 ==> conn[j].fd < 0) && (j == 1 ==> conn[0].fd >= 0)
      ensures j < 0 <==> conn[0].fd >= 0 && conn[1].fd >= 0
    {
      for i := 0 to 2
        invariant forall j | 0 <= j < i :: conn[j].fd >= 0
      {
        if !conn[i].IsOpen() { return i; }
      }
      return -1;
    }

    /** handle_accept and the welcome that follows it; socket is what accept gives. */
    method Accept(socket: int)
      requires Valid()
      modifies this`num, this`serverId, conn[0], conn[1]
      ensures Valid() && Abs() == if socket >= 0 then Accepted(old(Abs())) else old(Abs())
    {
      var j := GetUnusedConnection();
      if socket < 0 || j < 0 { return; }
      var pc := conn[j];
      num := num + 1;
      pc.fd := socket;
      pc.past := pc.past.(alone := num == 1);
      if num == 1 {
        pc.bound := true;
        serverId := (serverId + 1) % 0x1_0000_0000;
      }
      pc.past := pc.past.(welcomeId := serverId);
    }

    /** A slot is closed and the count adjusted. */
    method CloseSlot(i: nat)
      requires Valid() && i < 2
      modifies this`num, conn[i]
      ensures Valid() && Abs() == Closed(old(Abs()), i)
    {
      num := num - 1;
      conn[i].Close();
    }

    /** handle_t2h: driver to host. */
    method HandleT2h(pc: Connection, ghost d: nat, driver: Driver, canWrite: bool, sends: seq<Send>) returns (err: int)
      requires Valid() && d < 2 && pc == conn[d]
      modifies this`t2hPending, this`hostBlocked, this`hostGot, pc`t2hEnd, pc`past, pc.t2h
      ensures Valid() && Abs() == PutLink(old(Abs()), d, T2h(LinkAt(old(Abs()), d), driver, canWrite, sends))
      ensures err != 0 <==> T2hBreaks(LinkAt(old(Abs()), d), driver, canWrite, sends)
    {
      err := T2hTurn(pc, driver, canWrite, sends);
    }

    /** The same, on the connection and the flags. */
    method T2hTurn(pc: Connection, driver: Driver, canWrite: bool, sends: seq<Send>) returns (err: int)
      requires pc.Valid()
      modifies this`t2hPending, this`hostBlocked, this`hostGot, pc`t2hEnd, pc`past, pc.t2h
      ensures pc.Valid()
      ensures Link(pc.Abs(), FlagsNow()) == T2h(old(Link(pc.Abs(), FlagsNow())), driver, canWrite, sends)
      ensures err != 0 <==> T2hBreaks(old(Link(pc.Abs(), FlagsNow())), driver, canWrite, sends)
    {
      hide Taken, Breaks, FromDriver, SentToHost, Connection.Abs;
      err := 0;
      var ready := if t2hPending then canWrite else driver.readable;
      if !ready { return; }
      if driver.readable { pc.ReadDriver(driver.read); }
      assert pc.Abs() == ReadFrom(old(pc.Abs()), driver);
      EndIsLength(pc);
      NothingBreaks(sends);
      if pc.t2hEnd == 0 {
        t2hPending := false;
        return;
      }
      if canWrite { err := SendToHost(pc, sends); }
    }

    /** The sending half of handle_t2h. */
    method SendToHost(pc: Connection, sends: seq<Send>) returns (err: int)
      requires pc.Valid()
      modifies this`t2hPending, this`hostBlocked, this`hostGot, pc`t2hEnd, pc`past, pc.t2h
      ensures pc.Valid()
      ensures Link(pc.Abs(), FlagsNow()) == SentToHost(old(Link(pc.Abs(), FlagsNow())), Taken(old(|pc.Abs().t2h|), sends))
      ensures err != 0 <==> Breaks(old(|pc.Abs().t2h|), sends)
    {
      hide Taken, Breaks, ToHost, Connection.Abs;
      EndIsLength(pc);
      BufferOf(pc);
      var out, socketError := pc.DrainToHost(sends);
      hostGot := hostGot + out;
      EndIsLength(pc);
      LeftAfter(old(pc.Abs()), |out|);
      if pc.t2hEnd > 0 {
        if |out| > 0 { t2hPending := true; }
        hostBlocked := true;
      } else {
        hostBlocked := false;
      }
      err := if socketError then -1 else 0;
    }

    /** handle_h2t: host to driver. */
    method HandleH2t(pc: Connection, ghost d: nat, r: Recv, canWrite: bool, writes: seq<nat>) returns (err: int)
      requires Valid() && d < 2 && pc == conn[d]
      modifies this`h2tPending, this`driverBlocked, this`driverGot, pc`h2tEnd, pc`past, pc.h2t
      ensures Valid() && Abs() == PutLink(old(Abs()), d, H2t(LinkAt(old(Abs()), d), r, canWrite, writes))
      ensures err < 0 <==> H2tFails(LinkAt(old(Abs()), d), r, canWrite)
    {
      err := H2tTurn(pc, r, canWrite, writes);
    }

    method H2tTurn(pc: Connection, r: Recv, canWrite: bool, writes: seq<nat>) returns (err: int)
      requires pc.Valid()
      modifies this`h2tPending, this`driverBlocked, this`driverGot, pc`h2tEnd, pc`past, pc.h2t
      ensures pc.Valid()
      ensures Link(pc.Abs(), FlagsNow()) == H2t(old(Link(pc.Abs(), FlagsNow())), r, canWrite, writes)
      ensures err < 0 <==> H2tFails(old(Link(pc.Abs(), FlagsNow())), r, canWrite)
    {
      hide Taken, Received, SentToDriver, ReceiveFails, Connection.Abs;
      err := 0;
      var ready := if h2tPending then canWrite else !r.NotReady?;
      if !ready { return; }
      FailingReceive(pc.Abs(), r);
      if !r.NotReady? {
        err := pc.HandleReceive(r);
        if err < 0 { return; }
      }
      EndIsLength(pc);
      if pc.h2tEnd == 0 {
        h2tPending := false;
        return;
      }
      if !canWrite { return; }
      SendToDriver(pc, writes);
    }

    /** The sending half of handle_h2t. */
    method SendToDriver(pc: Connection, writes: seq<nat>)
      requires pc.Valid()
      modifies this`h2tPending, this`driverBlocked, this`driverGot, pc`h2tEnd, pc`past, pc.h2t
      ensures pc.Valid()
      ensures Link(pc.Abs(), FlagsNow())
              == SentToDriver(old(Link(pc.Abs(), FlagsNow())), Taken(old(|pc.Abs().h2t|), Writes(writes)))
    {
      hide Taken, ToDriver, Connection.Abs;
      EndIsLength(pc);
      BufferOf(pc);
      var out := pc.DrainToDriver(writes);
      driverGot := driverGot + out;
      EndIsLength(pc);
      LeftForDriver(old(pc.Abs()), |out|);
      if pc.h2tEnd > 0 {
        h2tPending, driverBlocked := true, true;
      } else {
        driverBlocked := false;
      }
    }

    /** close_other_data_connection, and what follows it in the loop. */
    method Takeover(i: nat)
      requires Valid() && i < 2
      modifies this`num, this`h2tPending, conn[1 - i]
      ensures Valid() && Abs() == TakenOver(old(Abs()), i)
    {
      var other := conn[1 - i];
      if other.IsOpen() && other.data { CloseSlot(1 - i); }
      h2tPending := true;
    }

    /** The management turn of one slot. */
    method Converse(i: nat, r: Recv)
      requires Valid() && i < 2
      modifies this`num, this`h2tPending, conn[0], conn[1], conn[i].h2t
      ensures Valid() && Abs() == Turn(old(Abs()), i, r)
    {
      hide PassOver, Received, ReceiveFails, Managed, Connection.Abs;
      var pc := conn[i];
      IsOpenIn(pc);
      if !pc.IsOpen() || pc.data || r.NotReady? { return; }
      var fail := pc.ReceiveAndManage(r, serverId);
      if fail != 0 {
        CloseSlot(i);
      } else if pc.data {
        Takeover(i);
      }
    }

    /** The data connection's turn: both directions, and closing it if the host is gone. */
    method ServeData(d: nat, e: In) returns (running: bool)
      requires Valid() && d < 2
      modifies this`t2hPending, this`hostBlocked, this`hostGot, this`h2tPending, this`driverBlocked, this`driverGot
      modifies this`num
      modifies conn[d], conn[d].h2t, conn[d].t2h
      ensures Valid() && Abs() == Served(old(Abs()), d, e) && running == !LinkStops(LinkAt(old(Abs()), d), e)
    {
      hide T2h, H2t, T2hBreaks, H2tFails;
      var canWriteHost := !hostBlocked || (t2hPending && e.host.writable);
      var err := HandleT2h(conn[d], d, e.driver, canWriteHost, e.host.sends);
      if err != 0 { return false; }
      ghost var s1 := Abs();
      assert s1 == PutLink(old(Abs()), d, LinkT2h(LinkAt(old(Abs()), d), e));
      assert LinkAt(s1, d) == LinkT2h(LinkAt(old(Abs()), d), e);
      var canWriteDriver := !driverBlocked || (h2tPending && e.driver.writable);
      var r := if d == 0 then e.r0 else e.r1;
      if H2tFails(LinkAt(s1, d), r, canWriteDriver) { FailedH2t(LinkAt(s1, d), r, canWriteDriver, e.driver.writes); }
      err := HandleH2t(conn[d], d, r, canWriteDriver, e.driver.writes);
      if err < 0 { CloseSlot(d); }
      running := true;
    }

    /** One round of the select loop, which does what a round on values does. */
    method Iterate(e: In) returns (running: bool)
      requires Valid() && num <= 2
      modifies this, Foot()
      ensures Valid() && Abs() == Round(old(Abs()), e) && running == !Stops(old(Abs()), e)
    {
      hide Turn, Served, Accepted, DataSlot, LinkStops, Connection.Abs;
      IsOpenIn(conn[0]);
      IsOpenIn(conn[1]);
      var d := GetDataConnection();
      var r0, r1 := if conn[0].IsOpen() then e.r0 else NotReady, if conn[1].IsOpen() then e.r1 else NotReady;
      if num < 2 && e.listen { Accept(e.socket); }
      if d >= 0 {
        running := ServeData(d, e);
        if !running { return; }
      }
      ManageBoth(r0, r1);
      running := true;
    }

    /** The management turns of both slots. */
    method ManageBoth(r0: Recv, r1: Recv)
      requires Valid()
      modifies this`num, this`h2tPending, conn[0], conn[1], conn[0].h2t, conn[1].h2t
      ensures Valid() && Abs() == Turn(Turn(old(Abs()), 0, r0), 1, r1)
    {
      hide Turn, Connection.Abs;
      Converse(0, r0);
      Converse(1, r1);
    }

    /** The loop: any number of rounds from a state the server can be in. */
    method Run(es: seq<In>)
      requires Valid() && Inv(Abs())
      modifies this, Foot()
      ensures Valid() && Abs() == Rounds(old(Abs()), es) && Inv(Abs())
      ensures CutOff(old(Abs())) ==> CutOff(Abs()) && hostGot == old(hostGot)
    {
      hide Round, Stops, Inv;
      ghost var s0 := Abs();
      RoundsKeep(s0, es);
      if CutOff(s0) { CutOffForever(s0, es); }
      var i := 0;
      while i < |es|
        invariant i <= |es| && Valid() && Inv(Abs()) && Rounds(Abs(), es[i..]) == Rounds(s0, es)
      {
        ghost var s := Abs();
        assert es[i..][0] == es[i] && es[i..][1..] == es[i + 1..];
        RoundKeeps(s, es[i]);
        CountInRange(s);
        var running := Iterate(es[i]);
        if !running { return; }
        i := i + 1;
      }
    }
  }

  lemma CountInRange(s: Sys)
    requires Inv(s)
    ensures 0 <= s.num <= 2
  {}

  lemma FailedH2t(x: Link, r: Recv, canWrite: bool, writes: seq<nat>)
    requires H2tFails(x, r, canWrite)
    ensures H2t(x, r, canWrite, writes) == x
  {}

  lemma EndIsLength(pc: Connection)
    requires pc.Valid()
    ensures |pc.Abs().h2t| == pc.h2tEnd && |pc.Abs().t2h| == pc.t2hEnd
  {}

  lemma BufferOf(pc: Connection)
    requires pc.Valid()
    ensures pc.Abs().h2t == pc.h2t[..pc.h2tEnd] && pc.Abs().t2h == pc.t2h[..pc.t2hEnd]
  {}

  lemma NothingBreaks(sends: seq<Send>)
    ensures !Breaks(0, sends)
  {}

  lemma LeftAfter(c: Conn, n: nat)
    requires n <= |c.t2h|
    ensures |ToHost(c, n).t2h| == |c.t2h| - n
  {}

  lemma LeftForDriver(c: Conn, n: nat)
    requires n <= |c.h2t|
    ensures |ToDriver(c, n).h2t| == |c.h2t| - n
  {}

  lemma FailingReceive(c: Conn, r: Recv)
    ensures ReceiveFails(c, r) ==> r != NotReady && Received(c, r) == c
    ensures r == NotReady ==> Received(c, r) == c
  {
    if r == Got([]) { assert WithHeard(c, Fitting([], |c.h2t|)) == c; }
  }

  lemma IsOpenIn(pc: Connection)
    requires pc.Valid()
    ensures pc.Abs().open == pc.IsOpen() && pc.Abs().data == pc.data
  {}
}
