/**
  What passes through the debug link server, computed from what the outside gives it
  and what it sends: no byte is made up, lost, changed or reordered on the way from
  the driver to the host or from the host to the driver.
 */
module MmlinkFeeds {
  import opened Bytes
  import opened Counts
  import opened MmlinkLines
  import opened MmlinkSpec
  import opened MmlinkRuns

  /** For one connection since it was accepted: bytes received from it; bytes the driver
      gave for it, and those of them sent to the host; bytes meant for the driver, and
      those of them sent to the driver. */
  datatype Tape = Tape(heard: seq<byte>, fed: seq<byte>, sent: seq<byte>, data: seq<byte>, given: seq<byte>)

  const BLANK := Tape([], [], [], [], [])

  /** What fits behind n bytes in a buffer of 3000. */
  function Fits(bytes: seq<byte>, n: nat): seq<byte> {
    if n < 3000 then bytes[..Min(|bytes|, 3000 - n)] else []
  }

  function Incoming(n: nat, r: Recv): seq<byte> { if r.Got? then Fits(r.bytes, n) else [] }

  /** What was added to a stream. */
  function Added(before: seq<byte>, after: seq<byte>): seq<byte> {
    if |before| <= |after| then after[|before|..] else []
  }

  /** What the data connection hands on: terminators before the '|' are overwritten. */
  function Piped(x: seq<byte>): seq<byte> { Nulled(BeforePipe(x)) + x[|BeforePipe(x)|..] }

  /** Whether a round receives from slot i, and whether it reads the driver for it: for
      the data connection only while what waits can be passed on. */
  predicate Hears(s: Sys, e: In, i: nat) {
    && !Stops(s, e)
    && (Get(s, i).data ==> DataSlot(s) == i && (s.flags.h2tPending ==> !s.flags.driverBlocked || e.driver.writable))
  }

  predicate ReadsDriver(s: Sys, e: In, i: nat) {
    DataSlot(s) == i && e.driver.readable && (s.flags.t2hPending ==> !s.flags.hostBlocked || e.host.writable)
  }

  /** The tape of slot i after a round; a slot that is closed or newly opened has none. */
  function Record(s: Sys, e: In, i: nat, tape: Tape): Tape {
    var c, c', out := Get(s, i), Get(Round(s, e), i), Round(s, e).flags;
    if !c.open || !c'.open then BLANK
    else
      var got := if Hears(s, e, i) then Incoming(|c.h2t|, RecvOf(e, i)) else [];
      var fed := if ReadsDriver(s, e, i) then Fits(e.driver.read, |c.t2h|) else [];
      var mine := DataSlot(s) == i;
      Tape(tape.heard + got,
           tape.fed + fed,
           tape.sent + if mine then Added(s.flags.hostGot, out.hostGot) else [],
           if c.data then tape.data + got else if c'.data then Piped(Tail(tape.heard) + got) else [],
           tape.given + if mine then Added(s.flags.driverGot, out.driverGot) else [])
  }

  function Recorded(s: Sys, es: seq<In>, i: nat, tape: Tape): Tape
    decreases |es|
  {
    if es == [] then tape
    else if Stops(s, es[0]) then Record(s, es[0], i, tape)
    else Recorded(Round(s, es[0]), es[1..], i, Record(s, es[0], i, tape))
  }

  // ---------- the connection's own record agrees ----------

  predicate Agrees(c: Conn, tape: Tape) {
    if !c.open then tape == BLANK
    else
      && tape.heard == c.past.heard && tape.fed == c.past.t2hIn && tape.sent == c.past.t2hOut
      && (if c.data then tape.data == c.past.h2tIn && tape.given == c.past.h2tOut
          else tape.data == [] && tape.given == [])
  }

  lemma Extend(a: seq<byte>, b: seq<byte>)
    ensures Added(a, a + b) == b
  {}

  /** One turn of the data connection towards the host. */
  lemma T2hTape(x: Link, e: In)
    requires |x.c.t2h| <= 3000
    ensures var y := LinkT2h(x, e);
            var fed := if e.driver.readable && T2hReady(x.f, true, CanWriteHost(x.f, e)) then Fits(e.driver.read, |x.c.t2h|) else [];
            && |x.f.hostGot| <= |y.f.hostGot| && y.f.driverGot == x.f.driverGot
            && y.c.past == x.c.past.(t2hIn := x.c.past.t2hIn + fed,
                                     t2hOut := x.c.past.t2hOut + Added(x.f.hostGot, y.f.hostGot))
            && y.c.open == x.c.open && y.c.data == x.c.data && y.c.h2t == x.c.h2t
            && y.f.h2tPending == x.f.h2tPending && y.f.driverBlocked == x.f.driverBlocked
  {
    hide Taken;
    FedTape(x.c, e.driver);
    var c := ReadFrom(x.c, e.driver);
    hide ReadFrom, Fits;
    Extend(x.f.hostGot, c.t2h[..Taken(|c.t2h|, e.host.sends)]);
    Extend(x.f.hostGot, []);
    assert x.f.hostGot + [] == x.f.hostGot;
    assert x.c.past.t2hOut + [] == x.c.past.t2hOut && x.c.past.t2hIn + [] == x.c.past.t2hIn;
  }

  lemma FedTape(c: Conn, d: Driver)
    requires |c.t2h| <= 3000
    ensures var fed := if d.readable then Fits(d.read, |c.t2h|) else [];
            ReadFrom(c, d) == c.(t2h := c.t2h + fed, past := c.past.(t2hIn := c.past.t2hIn + fed))
  {
    if d.readable {
      assert Fitting(d.read, |c.t2h|) == Fits(d.read, |c.t2h|);
    } else {
      assert c.t2h + [] == c.t2h && c.past.t2hIn + [] == c.past.t2hIn;
    }
  }

  /** And towards the driver. */
  lemma H2tTape(x: Link, r: Recv, e: In)
    requires |x.c.h2t| <= 3000 && !LinkFails(x, r, e)
    ensures var y := LinkH2t(x, r, e);
            var got := if H2tReady(x.f, r, CanWriteDriver(x.f, e)) then Incoming(|x.c.h2t|, r) else [];
            && |x.f.driverGot| <= |y.f.driverGot| && y.f.hostGot == x.f.hostGot
            && y.c.past == x.c.past.(heard := x.c.past.heard + got, h2tIn := x.c.past.h2tIn + got,
                                     h2tOut := x.c.past.h2tOut + Added(x.f.driverGot, y.f.driverGot))
            && y.c.open == x.c.open && y.c.data == x.c.data
  {
    hide Taken;
    ReceivedTape(x.c, r);
    var c := Received(x.c, r);
    hide Received, ReceiveFails;
    Extend(x.f.driverGot, c.h2t[..Taken(|c.h2t|, Writes(e.driver.writes))]);
    Extend(x.f.driverGot, []);
    assert x.f.driverGot + [] == x.f.driverGot && x.c.past.h2tOut + [] == x.c.past.h2tOut;
    assert x.c.past.heard + [] == x.c.past.heard && x.c.past.h2tIn + [] == x.c.past.h2tIn;
  }

  lemma ReceivedTape(c: Conn, r: Recv)
    requires |c.h2t| <= 3000
    ensures var d, got := Received(c, r), Incoming(|c.h2t|, r);
            d == c.(h2t := c.h2t + got, past := c.past.(heard := c.past.heard + got, h2tIn := c.past.h2tIn + got))
  {
    var got := Incoming(|c.h2t|, r);
    if r.Got? && |c.h2t| < 3000 {
      assert Fitting(r.bytes, |c.h2t|) == got;
    } else {
      assert got == [] && c.h2t + [] == c.h2t && c.past.heard + [] == c.past.heard && c.past.h2tIn + [] == c.past.h2tIn;
    }
  }

  /** A pass that makes the data connection hands on the buffer as it stands. */
  lemma PassTape(c: Conn, r: Recv, id: nat)
    requires ConnOk(c, id) && c.open && !c.data
    ensures var d, got := Received(c, r), Incoming(|c.h2t|, r);
            var p := PassOver(d, id);
            && d.past.heard == c.past.heard + got && d.past.t2hIn == c.past.t2hIn && d.past.t2hOut == c.past.t2hOut
            && d.open && !d.data
            && (p.verdict == ToData ==> p.buf == Piped(Tail(c.past.heard) + got))
  {
    ReceivedTape(c, r);
    hide Received, Run, Lines, Tail, BeforePipe;
  }

  // ---------- where a round leaves a slot ----------

  lemma TurnElsewhere(s: Sys, j: nat, r: Recv, i: nat)
    requires i < 2 && j < 2 && i != j
    ensures var c := Get(Turn(s, j, r), i); c == Get(s, i) || (Get(s, i).data && c == CLOSED)
  {
    hide PassOver, Received, Managed, ReceiveFails;
  }

  lemma TurnHere(s: Sys, i: nat, r: Recv)
    requires i < 2
    ensures var c, c' := Get(s, i), Get(Turn(s, i, r), i);
            if !c.open || c.data || r == NotReady then c' == c
            else
              var d := Received(c, r);
              c' == CLOSED || (c' == Managed(d, PassOver(d, s.id)) && PassOver(d, s.id).verdict != Close && !ReceiveFails(c, r))
  {
    hide PassOver, Received, Managed, ReceiveFails;
  }

  lemma TurnsKeepOutput(s: Sys, i: nat, r: Recv)
    requires i < 2
    ensures Turn(s, i, r).flags.hostGot == s.flags.hostGot && Turn(s, i, r).flags.driverGot == s.flags.driverGot
    ensures Turn(s, i, r).id == s.id
  {
    hide PassOver, Received, Managed, ReceiveFails;
  }

  /** What both management turns leave of slot i, and of the output. */
  lemma TurnsTape(s: Sys, r0: Recv, r1: Recv, i: nat)
    requires i < 2
    ensures var s', c := Turn(Turn(s, 0, r0), 1, r1), Get(s, i);
            var c', r := Get(s', i), if i == 0 then r0 else r1;
            && s'.flags.hostGot == s.flags.hostGot && s'.flags.driverGot == s.flags.driverGot
            && (c' == CLOSED ||
                if !c.open || c.data || r == NotReady then c' == c
                else
                  var d := Received(c, r);
                  c' == Managed(d, PassOver(d, s.id)) && PassOver(d, s.id).verdict != Close)
  {
    var s1 := Turn(s, 0, r0);
    TurnsKeepOutput(s, 0, r0);
    TurnsKeepOutput(s1, 1, r1);
    if i == 0 {
      TurnHere(s, 0, r0);
      TurnElsewhere(s1, 1, r1, 0);
    } else {
      TurnElsewhere(s, 0, r0, 1);
      TurnHere(s1, 1, r1);
    }
    hide Turn, Received, PassOver, Managed, ReceiveFails;
  }

  /** Accepting leaves an open slot alone and opens another with nothing heard. */
  lemma AcceptTape(s: Sys, e: In, i: nat)
    requires Inv(s) && i < 2
    ensures AfterAccept(s, e).flags == s.flags
    ensures var c := Get(AfterAccept(s, e), i);
            if Get(s, i).open then c == Get(s, i)
            else !c.data && c.past.heard == c.past.t2hIn == c.past.t2hOut == []
  {
    hide Follows, Conserves;
  }

  // ---------- a round, slot by slot ----------

  /** The data connection's turn on the tape. */
  lemma ServeTape(s: Sys, e: In, tape: Tape)
    requires Inv(s) && DataSlot(s) >= 0 && Agrees(Get(s, DataSlot(s)), tape)
    ensures var d, s2 := DataSlot(s), AfterServe(s, e);
            var c, c' := Get(s, d), Get(s2, d);
            var got := if Hears(s, e, d) then Incoming(|c.h2t|, RecvOf(e, d)) else [];
            var fed := if ReadsDriver(s, e, d) then Fits(e.driver.read, |c.t2h|) else [];
            c' == CLOSED ||
            (c'.open && c'.data &&
             Agrees(c', Tape(tape.heard + got, tape.fed + fed, tape.sent + Added(s.flags.hostGot, s2.flags.hostGot),
                             tape.data + got, tape.given + Added(s.flags.driverGot, s2.flags.driverGot))))
  {
    var d := DataSlot(s);
    AcceptTape(s, e, d);
    DataSlotIsData(s, e);
    LinkAtOk(s, d);
    var x := LinkAt(s, d);
    assert LinkAt(AfterAccept(s, e), d) == x;
    T2hTape(x, e);
    var y := LinkT2h(x, e);
    assert |y.c.h2t| <= 3000;
    Nothing(tape);
    Extend(y.f.driverGot, []);
    assert y.f.driverGot + [] == y.f.driverGot;
    hide Inv, ConnOk, LinkT2h, LinkH2t, LinkStops, LinkOk, AfterAccept, Fits, Incoming;
    if !LinkStops(x, e) && !LinkFails(y, RecvOf(e, d), e) { H2tTape(y, RecvOf(e, d), e); }
    ServeCases(AfterAccept(s, e), d, e);
  }

  lemma Nothing(tape: Tape)
    ensures tape.heard + [] == tape.heard && tape.data + [] == tape.data && tape.given + [] == tape.given
    ensures tape.fed + [] == tape.fed && tape.sent + [] == tape.sent
  {}

  lemma ServeCases(s: Sys, d: nat, e: In)
    requires d < 2
    ensures var x, s' := LinkAt(s, d), Served(s, d, e);
            var y := LinkT2h(x, e);
            if LinkStops(x, e) then LinkAt(s', d) == y
            else if LinkFails(y, RecvOf(e, d), e) then Get(s', d) == CLOSED && s'.flags == y.f
            else LinkAt(s', d) == LinkH2t(y, RecvOf(e, d), e)
    ensures Get(Served(s, d, e), 1 - d) == Get(s, 1 - d)
  {
    hide LinkT2h, LinkH2t, LinkFails, LinkStops;
  }

  /** A slot that is not the data connection's is not touched before its turn. */
  lemma ServeElsewhere(s: Sys, e: In, i: nat)
    requires Inv(s) && i < 2 && DataSlot(s) != i
    ensures Get(AfterServe(s, e), i) == Get(AfterAccept(s, e), i)
  {
    hide Inv, AfterAccept, Served;
    if DataSlot(s) >= 0 { ServeCases(AfterAccept(s, e), DataSlot(s), e); }
  }

  lemma RecordKeepsData(s: Sys, e: In, i: nat, tape: Tape)
    requires Inv(s) && i < 2 && Agrees(Get(s, i), tape) && DataSlot(s) == i
    ensures Agrees(Get(Round(s, e), i), Record(s, e, i, tape))
  {
    ServeTape(s, e, tape);
    DataSlotIsData(s, e);
    LinkAtOk(s, i);
    var s2 := AfterServe(s, e);
    TurnsTape(s2, Watched(s, 0, e), Watched(s, 1, e), i);
    hide Inv, AfterServe, Turn, Hears, ReadsDriver, Incoming, Fits, Managed, PassOver, Received, LinkOk, Stops;
  }

  lemma RecordKeepsOther(s: Sys, e: In, i: nat, tape: Tape)
    requires Inv(s) && i < 2 && Agrees(Get(s, i), tape) && DataSlot(s) != i
    ensures Agrees(Get(Round(s, e), i), Record(s, e, i, tape))
  {
    var c := Get(s, i);
    ServeElsewhere(s, e, i);
    AcceptTape(s, e, i);
    var s2 := AfterServe(s, e);
    TurnsTape(s2, Watched(s, 0, e), Watched(s, 1, e), i);
    Nothing(tape);
    assert ConnOk(c, s.id);
    if c.open {
      ServeLeavesId(s, e);
      SameIdWhenOpen(s, e, i);
      if !c.data { PassTape(c, RecvOf(e, i), s.id); }
    }
    hide Inv, ConnOk, AfterServe, AfterAccept, Turn, ReadsDriver, Incoming, Fits, PassOver, Received, Stops, Piped;
  }

  lemma SameIdWhenOpen(s: Sys, e: In, i: nat)
    requires Inv(s) && i < 2 && Get(s, i).open
    ensures AfterAccept(s, e).id == s.id
  {
    hide ConnOk;
  }

  lemma {:induction false} RecordedKeeps(s: Sys, es: seq<In>, i: nat, tape: Tape)
    requires Inv(s) && i < 2 && Agrees(Get(s, i), tape)
    ensures Agrees(Get(Rounds(s, es), i), Recorded(s, es, i, tape))
    decreases |es|
  {
    hide Inv, Round, Record, Stops, Agrees;
    if es != [] {
      var e := es[0];
      if DataSlot(s) == i { RecordKeepsData(s, e, i, tape); } else { RecordKeepsOther(s, e, i, tape); }
      RoundKeeps(s, e);
      if !Stops(s, e) { RecordedKeeps(Round(s, e), es[1..], i, Record(s, e, i, tape)); }
    }
  }

  // ---------- what the driver gets of what was heard ----------

  /** data is the end of what was heard, a '|' in it, terminators before that one
      overwritten. */
  predicate EndOf(heard: seq<byte>, data: seq<byte>) {
    && |data| <= |heard|
    && var x := heard[|heard| - |data|..];
    PIPE in x && data == Piped(x)
  }

  predicate FromHeard(c: Conn, tape: Tape) { c.open && c.data ==> EndOf(tape.heard, tape.data) }

  lemma PipedMore(x: seq<byte>, got: seq<byte>)
    requires PIPE in x
    ensures Piped(x + got) == Piped(x) + got && |Piped(x)| == |x|
  {
    PipePrefix(x, got);
    assert (x + got)[|BeforePipe(x)|..] == x[|BeforePipe(x)|..] + got;
  }

  lemma HeardMore(heard: seq<byte>, data: seq<byte>, got: seq<byte>)
    requires EndOf(heard, data)
    ensures EndOf(heard + got, data + got)
  {
    var x := heard[|heard| - |data|..];
    PipedMore(x, got);
    hide Piped;
    assert (heard + got)[|heard| - |data|..] == x + got;
  }

  lemma EndOfSuffix(all: seq<byte>, x: seq<byte>)
    requires |x| <= |all| && x == all[|all| - |x|..] && PIPE in x
    ensures EndOf(all, Piped(x))
  {
    PipedMore(x, []);
    hide Piped;
  }

  lemma SuffixMore(heard: seq<byte>, t: seq<byte>, got: seq<byte>)
    requires |t| <= |heard| && t == heard[|heard| - |t|..]
    ensures var all, x := heard + got, t + got; |x| <= |all| && x == all[|all| - |x|..]
  {}

  lemma HeardFirst(heard: seq<byte>, got: seq<byte>)
    requires PIPE !in heard && PIPE in heard + got
    ensures EndOf(heard + got, Piped(Tail(heard) + got))
  {
    TailSuffix(heard);
    hide Tail, EndOf, Piped;
    SuffixMore(heard, Tail(heard), got);
    EndOfSuffix(heard + got, Tail(heard) + got);
  }

  function NewlyHeard(s: Sys, e: In, i: nat): seq<byte> {
    if Hears(s, e, i) then Incoming(|Get(s, i).h2t|, RecvOf(e, i)) else []
  }

  lemma RecordParts(s: Sys, e: In, i: nat, tape: Tape)
    requires Get(s, i).open && Get(Round(s, e), i).open
    ensures var tape' := Record(s, e, i, tape);
            && tape'.heard == tape.heard + NewlyHeard(s, e, i)
            && (Get(s, i).data ==> tape'.data == tape.data + NewlyHeard(s, e, i))
            && (!Get(s, i).data && Get(Round(s, e), i).data ==> tape'.data == Piped(Tail(tape.heard) + NewlyHeard(s, e, i)))
  {
    hide Round, Hears, ReadsDriver, Incoming, Fits, Piped, Tail;
  }

  lemma FromHeardKeeps(s: Sys, e: In, i: nat, tape: Tape)
    requires Inv(s) && Inv(Round(s, e)) && i < 2 && Agrees(Get(s, i), tape) && FromHeard(Get(s, i), tape)
    requires Agrees(Get(Round(s, e), i), Record(s, e, i, tape))
    ensures FromHeard(Get(Round(s, e), i), Record(s, e, i, tape))
  {
    var c, c' := Get(s, i), Get(Round(s, e), i);
    hide Round, Record, EndOf, NewlyHeard, Piped, Tail, Inv;
    if c'.open && c'.data {
      OpenedHasNone(s, e, i, tape);
      if c.open {
        RecordParts(s, e, i, tape);
        HeardPipe(s, i);
        HeardPipe(Round(s, e), i);
        if c.data { HeardMore(tape.heard, tape.data, NewlyHeard(s, e, i)); } else { HeardFirst(tape.heard, NewlyHeard(s, e, i)); }
      }
    }
  }

  /** A connection is never the data connection in the round that accepts it. */
  lemma OpenedHasNone(s: Sys, e: In, i: nat, tape: Tape)
    requires Inv(Round(s, e)) && i < 2 && Agrees(Get(Round(s, e), i), Record(s, e, i, tape))
    ensures Get(Round(s, e), i).open && Get(Round(s, e), i).data ==> Get(s, i).open
  {
    if Get(Round(s, e), i).open && Get(Round(s, e), i).data && !Get(s, i).open {
      HeardPipe(Round(s, e), i);
    }
    hide Round;
  }

  lemma HeardPipe(s: Sys, i: nat)
    requires Inv(s) && i < 2 && Get(s, i).open
    ensures Get(s, i).data <==> PIPE in Get(s, i).past.heard
  {}

  lemma {:induction false} FromHeardAlways(s: Sys, es: seq<In>, i: nat, tape: Tape)
    requires Inv(s) && i < 2 && Agrees(Get(s, i), tape) && FromHeard(Get(s, i), tape)
    ensures FromHeard(Get(Rounds(s, es), i), Recorded(s, es, i, tape))
    decreases |es|
  {
    hide Inv, Round, Record, Stops, Agrees, FromHeard;
    if es != [] {
      var e := es[0];
      if DataSlot(s) == i { RecordKeepsData(s, e, i, tape); } else { RecordKeepsOther(s, e, i, tape); }
      RoundKeeps(s, e);
      FromHeardKeeps(s, e, i, tape);
      if !Stops(s, e) { FromHeardAlways(Round(s, e), es[1..], i, Record(s, e, i, tape)); }
    }
  }

  // ---------- main result ----------

  /** In every reachable state and for each open connection: what was sent to the host,
      followed by what waits for it, is what the driver gave in the rounds that read it,
      as far as it fitted; what was sent to the driver, followed by what waits for it,
      is the end of what the host sent, from before the '|' on; and the commands carried
      out are the lines it sent before that. */
  lemma BytesPassThrough(es: seq<In>, s: Sys, i: nat)
    requires s == Rounds(INITIAL, es) && i < 2 && Get(s, i).open
    ensures var c, tape := Get(s, i), Recorded(INITIAL, es, i, BLANK);
            && tape.sent + c.t2h == tape.fed
            && (c.data ==> tape.given + c.h2t == tape.data && FromHeard(c, tape))
            && (!c.data ==> PIPE !in tape.heard && c.h2t == Tail(tape.heard))
            && c.past.log == Commands(Lines(BeforePipe(tape.heard)))
  {
    Reachable(es);
    RecordedKeeps(INITIAL, es, i, BLANK);
    FromHeardAlways(INITIAL, es, i, BLANK);
    CommandsOfConnection(es, s, i);
    StateInOrder(es, s, i);
    hide Rounds, Recorded, Inv;
  }
}
