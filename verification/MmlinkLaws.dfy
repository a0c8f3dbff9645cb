/**
  When the debug link server's flags and connections change, exactly: what cuts the
  host off, what marks host and driver blocked, what an accepted client gets, and
  what closes the data connection.
 */
module MmlinkLaws {
  import opened Bytes
  import opened Counts
  import opened MmlinkLines
  import opened MmlinkSpec
  import opened MmlinkRuns
  import opened MmlinkFeeds

  // ---------- the flags ----------

  /** What the data connection has for its host in this round. */
  function ForHost(s: Sys, e: In): seq<byte>
    requires DataSlot(s) >= 0
  {
    var c := Get(s, DataSlot(s));
    c.t2h + if e.driver.readable then Fits(e.driver.read, |c.t2h|) else []
  }

  predicate FirstTakesNone(sends: seq<Send>) { sends == [] || !sends[0].Took? || sends[0].n == 0 }

  /** What cuts the host off: a first send that takes nothing while nothing is pending,
      or a new data connection with nothing to send whose predecessor left its host
      marked blocked. */
  predicate CutsOff(s: Sys, e: In) {
    DataSlot(s) >= 0 &&
    var f := s.flags;
    || (!f.t2hPending && e.driver.readable && ForHost(s, e) != [] && FirstTakesNone(e.host.sends))
    || (f.t2hPending && f.hostBlocked && e.host.writable && ForHost(s, e) == [])
  }

  lemma TakesNone(len: nat, sends: seq<Send>)
    requires len > 0
    ensures Taken(len, sends) == 0 <==> FirstTakesNone(sends)
  {}

  lemma T2hFlags(x: Link, e: In)
    requires |x.c.t2h| <= 3000
    ensures var y := LinkT2h(x, e);
            var bytes := x.c.t2h + if e.driver.readable then Fits(e.driver.read, |x.c.t2h|) else [];
            var canWrite := !x.f.hostBlocked || (x.f.t2hPending && e.host.writable);
            var ready := if x.f.t2hPending then canWrite else e.driver.readable;
            && (ready && canWrite && bytes != [] ==>
                  && (y.f.hostBlocked <==> y.c.t2h != [])
                  && (y.f.t2hPending <==> x.f.t2hPending || (y.c.t2h != [] && !FirstTakesNone(e.host.sends)))
                  && (FirstTakesNone(e.host.sends) ==> y.c.t2h == bytes))
            && (!(ready && canWrite && bytes != []) ==> y.f.hostBlocked == x.f.hostBlocked)
            && (y.f.t2hPending != x.f.t2hPending && x.f.t2hPending ==> ready && bytes == [])
            && (ready && bytes == [] ==> !y.f.t2hPending)
            && (y.f.t2hPending && !x.f.t2hPending ==> ready && canWrite && bytes != [])
  {
    hide Taken;
    FedTape(x.c, e.driver);
    var c := ReadFrom(x.c, e.driver);
    assert c.t2h == x.c.t2h + if e.driver.readable then Fits(e.driver.read, |x.c.t2h|) else [] by {
      assert x.c.t2h + [] == x.c.t2h;
    }
    hide ReadFrom, Fits;
    if c.t2h != [] { TakesNone(|c.t2h|, e.host.sends); }
    assert Taken(|c.t2h|, e.host.sends) == 0 ==> c.t2h[0..] == c.t2h;
  }

  /** A round cuts the host off exactly in those two ways. */
  lemma CutOffStepIff(s: Sys, e: In)
    requires Inv(s) && !CutOff(s)
    ensures CutOff(Round(s, e)) <==> CutsOff(s, e)
  {
    var s2 := AfterServe(s, e);
    TurnLeavesHost(s2, 0, Watched(s, 0, e));
    TurnLeavesHost(Turn(s2, 0, Watched(s, 0, e)), 1, Watched(s, 1, e));
    ServeFlags(s, e);
    hide AfterServe, Turn, Inv, FirstTakesNone;
    if DataSlot(s) >= 0 { T2hFlags(LinkAt(s, DataSlot(s)), e); }
    hide LinkT2h, Fits;
  }

  lemma ServeFlags(s: Sys, e: In)
    requires Inv(s)
    ensures if DataSlot(s) < 0 then AfterServe(s, e).flags == s.flags
            else |Get(s, DataSlot(s)).t2h| <= 3000 && SameHost(LinkT2h(LinkAt(s, DataSlot(s)), e).f, AfterServe(s, e).flags)
  {
    var d := DataSlot(s);
    if d >= 0 {
      AcceptTape(s, e, d);
      DataSlotIsData(s, e);
      LinkAtOk(s, d);
      ServeCases(AfterAccept(s, e), d, e);
      H2tSparesHost(LinkT2h(LinkAt(s, d), e), RecvOf(e, d), e);
      hide LinkT2h, LinkH2t, LinkFails, LinkStops, AfterAccept, Served;
    } else {
      AcceptTape(s, e, 0);
    }
  }

  lemma H2tSparesHost(x: Link, r: Recv, e: In)
    ensures SameHost(x.f, LinkH2t(x, r, e).f)
  {
    hide Taken, Received, ToDriver;
  }

  /** The driver is marked blocked, and its bytes pending, exactly if some are left after
      a turn that offered them; a turn that does not leaves both as they are. */
  lemma DriverFlags(s: Sys, e: In)
    requires Inv(s) && DataSlot(s) >= 0 && !Stops(s, e) && Get(AfterServe(s, e), DataSlot(s)).open
    ensures var f, f' := s.flags, AfterServe(s, e).flags;
            var c, c', r := Get(s, DataSlot(s)), Get(AfterServe(s, e), DataSlot(s)), RecvOf(e, DataSlot(s));
            var offered := if f.h2tPending then !f.driverBlocked || e.driver.writable else r != NotReady;
            if offered then (f'.driverBlocked <==> c'.h2t != []) && (c'.h2t != [] ==> f'.h2tPending)
            else f'.driverBlocked == f.driverBlocked && f'.h2tPending == f.h2tPending && c'.h2t == c.h2t
  {
    var d := DataSlot(s);
    AcceptTape(s, e, d);
    DataSlotIsData(s, e);
    LinkAtOk(s, d);
    var x := LinkAt(s, d);
    ServeCases(AfterAccept(s, e), d, e);
    T2hLeavesH2t(x, e);
    LinkT2hKeeps(x, e, s.id);
    H2tFlags(LinkT2h(x, e), RecvOf(e, d), e, s.id);
    hide LinkT2h, LinkH2t, LinkStops, LinkOk, AfterAccept, Served, Inv;
  }

  lemma H2tFlags(x: Link, r: Recv, e: In, id: nat)
    requires LinkOk(x, id) && !LinkFails(x, r, e)
    ensures var y := LinkH2t(x, r, e);
            var offered := if x.f.h2tPending then !x.f.driverBlocked || e.driver.writable else r != NotReady;
            if offered then (y.f.driverBlocked <==> y.c.h2t != []) && (y.c.h2t != [] ==> y.f.h2tPending)
            else y == x
  {
    hide Taken, ConnOk;
    NoShorter(x.c, r);
    if H2tReady(x.f, r, CanWriteDriver(x.f, e)) { DriverIsOffered(x, r, e, id); }
    hide Received, ReceiveFails;
  }

  lemma NoShorter(c: Conn, r: Recv)
    ensures |c.h2t| <= |Received(c, r).h2t|
  {}

  // ---------- a socket error ends the loop ----------

  /** The bytes some sends would take if there were enough. */
  function Total(sends: seq<Send>): nat {
    if sends == [] then 0 else (if sends[0].Took? then sends[0].n else 0) + Total(sends[1..])
  }

  /** Send k is a socket error, each one before it took some, and all of them together
      fewer than len bytes. */
  predicate BrokenAt(len: nat, sends: seq<Send>, k: nat) {
    && k < |sends| && sends[k] == Broken && Total(sends[..k]) < len
    && forall j | 0 <= j < k :: sends[j].Took? && sends[j].n > 0
  }

  lemma {:induction false} BreaksIff(len: nat, sends: seq<Send>)
    ensures Breaks(len, sends) <==> exists k: nat :: BrokenAt(len, sends, k)
    decreases |sends|
  {
    if len > 0 && sends != [] {
      if sends[0] == Broken {
        assert BrokenAt(len, sends, 0);
      } else if sends[0].Took? && sends[0].n > 0 {
        var rest := len - Min(sends[0].n, len);
        BreaksIff(rest, sends[1..]);
        if Breaks(len, sends) {
          var k: nat :| BrokenAt(rest, sends[1..], k);
          BrokenLater(len, sends, k);
        } else if k: nat :| BrokenAt(len, sends, k) {
          assert k > 0;
          BrokenLater(len, sends, k - 1);
        }
      }
    }
  }

  lemma BrokenLater(len: nat, sends: seq<Send>, k: nat)
    requires sends != [] && sends[0].Took? && sends[0].n > 0
    ensures BrokenAt(len, sends, k + 1) <==> BrokenAt(len - Min(sends[0].n, len), sends[1..], k)
  {
    if k + 1 <= |sends| { assert sends[..k + 1][1..] == sends[1..][..k]; }
    if BrokenAt(len - Min(sends[0].n, len), sends[1..], k) {
      assert forall j | 0 < j < k + 1 :: sends[j] == sends[1..][j - 1];
    }
  }

  /** A round ends the loop if and only if a send to the host meets a socket error before
      its bytes have run out; the other connections then do not get their turn, and what
      the driver has not taken stays. */
  lemma StopsIff(s: Sys, e: In)
    requires Inv(s)
    ensures Stops(s, e) <==>
            && DataSlot(s) >= 0
            && (!s.flags.hostBlocked || (s.flags.t2hPending && e.host.writable))
            && (s.flags.t2hPending || e.driver.readable)
            && exists k: nat :: BrokenAt(|ForHost(s, e)|, e.host.sends, k)
    ensures Stops(s, e) ==>
            var d := DataSlot(s);
            && Get(Round(s, e), 1 - d) == Get(AfterAccept(s, e), 1 - d)
            && Get(Round(s, e), d).open && Get(Round(s, e), d).h2t == Get(s, d).h2t
  {
    var d := DataSlot(s);
    if d >= 0 {
      AcceptTape(s, e, d);
      DataSlotIsData(s, e);
      LinkAtOk(s, d);
      var x := LinkAt(s, d);
      FedTape(x.c, e.driver);
      assert x.c.t2h + [] == x.c.t2h;
      BreaksIff(|ForHost(s, e)|, e.host.sends);
      ServeElsewhere(s, e, 1 - d);
      ServeCases(AfterAccept(s, e), d, e);
      T2hLeavesH2t(x, e);
      hide LinkT2h, LinkH2t, AfterAccept, Served, BrokenAt, Breaks, Fits, Turn;
    }
  }

  // ---------- clients come and go ----------

  /** The slot an accepted client gets. */
  function NewSlot(s: Sys): nat { if s.c0.open then 1 else 0 }

  /** In every reachable state with a free slot, an accepted client gets one, with nothing
      heard; it is bound at once exactly if no other connection is open, and then the
      handle is a new one, which no other id of the same 32 bits has. */
  lemma AcceptOutcome(es: seq<In>, s: Sys, e: In)
    requires s == Rounds(INITIAL, es) && !(s.c0.open && s.c1.open) && e.listen && e.socket >= 0
    ensures var c, s' := Get(AfterAccept(s, e), NewSlot(s)), AfterAccept(s, e);
            var first := !s.c0.open && !s.c1.open;
            && c == Welcomed(first, s'.id) && s'.num == s.num + 1 && !Get(s, NewSlot(s)).open
            && s'.id == (if first then (s.id + 1) % 0x1_0000_0000 else s.id)
            && (first ==> HandleCommand(s'.id) != HandleCommand(s.id))
  {
    Reachable(es);
    var id' := (s.id + 1) % 0x1_0000_0000;
    HandlesDiffer(s.id, id');
    hide Follows, Conserves, HandleCommand, Rounds;
  }

  /** The client is still there at the end of the round. */
  lemma AcceptLasts(es: seq<In>, s: Sys, e: In)
    requires s == Rounds(INITIAL, es) && !(s.c0.open && s.c1.open) && e.listen && e.socket >= 0
    ensures Get(Round(s, e), NewSlot(s)) == Welcomed(!s.c0.open && !s.c1.open, AfterAccept(s, e).id)
  {
    Reachable(es);
    AcceptOutcome(es, s, e);
    var i := NewSlot(s);
    DataSlotIsData(s, e);
    NotTheDataSlot(s, i);
    ServeElsewhere(s, e, i);
    var s2 := AfterServe(s, e);
    assert Watched(s, i, e) == NotReady;
    TurnElsewhere(s2, 0, Watched(s, 0, e), 1);
    TurnElsewhere(Turn(s2, 0, Watched(s, 0, e)), 1, Watched(s, 1, e), 0);
    hide AfterServe, AfterAccept, Inv, Rounds;
  }

  lemma NotTheDataSlot(s: Sys, i: nat)
    requires Inv(s) && i < 2 && !Get(s, i).open
    ensures DataSlot(s) != i
  {
    hide Follows, Conserves;
  }

  /** The turn of slot j closes a data connection in slot i only by taking over. */
  lemma TakesOver(s: Sys, j: nat, r: Recv, i: nat)
    requires i < 2 && j < 2 && i != j && Get(s, i).open && !Get(Turn(s, j, r), i).open
    ensures Get(Turn(s, j, r), j).open && Get(Turn(s, j, r), j).data
  {
    hide PassOver, Received, ReceiveFails;
    StaysOpen(Get(s, j), r);
  }

  lemma StaysOpen(c: Conn, r: Recv)
    ensures Received(c, r).open == c.open
  {}

  /** In every reachable state a round closes the data connection if and only if, in
      a turn that is taken and with room in the buffer, recv fails or finds the peer gone,
      or another connection takes over. */
  lemma DataClosedIff(es: seq<In>, s: Sys, e: In, d: nat)
    requires s == Rounds(INITIAL, es) && d < 2 && Get(s, d).data
    ensures var r, f := RecvOf(e, d), s.flags;
            var turn := DataSlot(s) == d && if f.h2tPending then !f.driverBlocked || e.driver.writable else r != NotReady;
            var gone := |Get(s, d).h2t| < 3000 && (r == Failed || r == Got([]));
            !Get(Round(s, e), d).open <==> !Stops(s, e) && ((turn && gone) || Get(Round(s, e), 1 - d).data)
  {
    assert ReceiveFails(Get(s, d), RecvOf(e, d)) <==>
           |Get(s, d).h2t| < 3000 && (RecvOf(e, d) == Failed || RecvOf(e, d) == Got([]));
    Reachable(es);
    RoundKeeps(s, e);
    DataOpen(s, d);
    DataOpen(Round(s, e), 1 - d);
    ServeCloses(s, e, d);
    OneData(Round(s, e));
    var s2 := AfterServe(s, e);
    var r0, r1 := Watched(s, 0, e), Watched(s, 1, e);
    TurnsClose(s2, r0, r1, d);
    hide Inv, AfterServe, Turn, Rounds, ReceiveFails, Stops;
  }

  lemma DataOpen(s: Sys, d: nat)
    requires Inv(s) && d < 2
    ensures Get(s, d).data ==> Get(s, d).open
  {}

  lemma OneData(s: Sys)
    requires Inv(s)
    ensures !(s.c0.data && s.c1.data)
  {}

  lemma ServeCloses(s: Sys, e: In, d: nat)
    requires Inv(s) && d < 2 && Get(s, d).data
    ensures var r, f, c' := RecvOf(e, d), s.flags, Get(AfterServe(s, e), d);
            var turn := DataSlot(s) == d && if f.h2tPending then !f.driverBlocked || e.driver.writable else r != NotReady;
            && (!c'.open <==> !Stops(s, e) && turn && ReceiveFails(Get(s, d), r)) && (c'.open ==> c'.data)
            && (c'.open || c' == CLOSED)
  {
    AcceptTape(s, e, d);
    DataOpen(s, d);
    DataSlotIsData(s, e);
    if DataSlot(s) == d {
      LinkAtOk(s, d);
      var x := LinkAt(s, d);
      ServeCases(AfterAccept(s, e), d, e);
      T2hLeavesH2t(x, e);
      T2hTape(x, e);
      if !LinkFails(LinkT2h(x, e), RecvOf(e, d), e) {
        LinkT2hKeeps(x, e, s.id);
        H2tTape(LinkT2h(x, e), RecvOf(e, d), e);
      }
      hide LinkT2h, LinkH2t, LinkStops, LinkOk, AfterAccept, Served, Inv;
    } else {
      ServeElsewhere(s, e, d);
      hide Inv, AfterServe, AfterAccept;
    }
  }

  lemma TurnsClose(s: Sys, r0: Recv, r1: Recv, d: nat)
    requires d < 2 && (Get(s, d).open ==> Get(s, d).data) && (Get(s, d).open || Get(s, d) == CLOSED)
    ensures var s' := Turn(Turn(s, 0, r0), 1, r1);
            && (!Get(s, d).open ==> !Get(s', d).open)
            && (Get(s', d).open ==> Get(s', d).data)
            && (Get(s, d).open && !Get(s', d).open ==> Get(s', 1 - d).data)
  {
    var s1 := Turn(s, 0, r0);
    TurnElsewhere(s, 0, r0, 1);
    TurnHere(s, 0, r0);
    TurnElsewhere(s1, 1, r1, 0);
    TurnHere(s1, 1, r1);
    if d == 1 && s.c1.open && !s1.c1.open { TakesOver(s, 0, r0, 1); }
    if d == 0 && s1.c0.open && !Turn(s1, 1, r1).c0.open { TakesOver(s1, 1, r1, 0); }
    hide Turn, Received, PassOver, Managed, ReceiveFails;
  }
}
