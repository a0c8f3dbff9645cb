/**
  Laws of sessions over the DMA devices, stated on calls and their answers alone:
  how positions move, and what one file sees of another.
 */
module DmaLaws {
  import opened Bytes
  import opened DmaSpec
  import opened DmaSession

  predicate Aligned(n: nat) { n % 1024 == 0 }

  lemma OneCall(s: State, op: Op)
    requires |s.ram| == MAX_OFFSET && Allowed(s, op)
    ensures Legal(s, [op]) && Play(s, [op]) == Next(s, op)
    ensures Replies(s, [op]) == [Reply(Call(s, op).ret, Call(s, op).data)]
  {
    assert [op][1..] == [];
  }

  lemma TwoCalls(s: State, a: Op, b: Op)
    requires |s.ram| == MAX_OFFSET && Allowed(s, a) && Allowed(Next(s, a), b)
    ensures Legal(s, [a, b]) && Play(s, [a, b]) == Next(Next(s, a), b)
    ensures var m := Next(s, a);
            Replies(s, [a, b]) == [Reply(Call(s, a).ret, Call(s, a).data), Reply(Call(m, b).ret, Call(m, b).data)]
  {
    assert [a, b][1..] == [b];
    OneCall(Next(s, a), b);
  }

  /** A write that fits replaces exactly its bytes and moves the file past them. */
  lemma WriteFits(s: State, f: nat, a: seq<byte>)
    requires Sound(s) && f < |s.pos| && Aligned(|a|) && s.pos[f] + |a| <= MAX_OFFSET
    ensures var p := s.pos[f];
            Next(s, Write(f, a)) == State(s.ram[..p] + a + s.ram[p + |a|..], s.pos[f := p + |a|])
    ensures Sound(Next(s, Write(f, a)))
  {
    var p := s.pos[f];
    assert a[..|a|] == a;
    if p == MAX_OFFSET { assert s.ram[..p] + a + s.ram[p + |a|..] == s.ram; }
  }

  /** Two writes one after the other are one write of both. */
  lemma WritesJoin(s: State, f: nat, a: seq<byte>, b: seq<byte>)
    requires Sound(s) && f < |s.pos| && Aligned(|a|) && Aligned(|b|) && s.pos[f] + |a| + |b| <= MAX_OFFSET
    ensures Legal(s, [Write(f, a), Write(f, b)]) && Legal(s, [Write(f, a + b)])
    ensures Play(s, [Write(f, a), Write(f, b)]) == Play(s, [Write(f, a + b)])
  {
    hide Next, Legal, Play, Replies, Call;
    OneCall(s, Write(f, a + b));
    WriteFits(s, f, a);
    TwoCalls(s, Write(f, a), Write(f, b));
    WriteFits(Next(s, Write(f, a)), f, b);
    WriteFits(s, f, a + b);
    JoinBytes(s.ram, s.pos[f], a, b);
  }

  lemma JoinBytes(ram: seq<byte>, p: nat, a: seq<byte>, b: seq<byte>)
    requires p + |a| + |b| <= |ram|
    ensures var m := ram[..p] + a + ram[p + |a|..];
            m[..p + |a|] + b + m[p + |a| + |b|..] == ram[..p] + (a + b) + ram[p + |a| + |b|..]
  {}

  /** Two reads one after the other return what one read of both returns. */
  lemma ReadsJoin(s: State, f: nat, m: nat, n: nat)
    requires Sound(s) && f < |s.pos| && Aligned(m) && Aligned(n) && m > 0 && n > 0 && s.pos[f] + m + n <= MAX_OFFSET
    ensures Legal(s, [Read(f, m), Read(f, n)]) && Legal(s, [Read(f, m + n)])
    ensures Play(s, [Read(f, m), Read(f, n)]) == Play(s, [Read(f, m + n)])
    ensures var two, one := Replies(s, [Read(f, m), Read(f, n)]), Replies(s, [Read(f, m + n)]);
            two[0].ret == Count(m) && two[1].ret == Count(n) && two[0].data + two[1].data == one[0].data
  {
    assert |s.ram| == MAX_OFFSET && Aligned(m + n);
    hide Next, Call, Legal, Play, Replies, Allowed, Sound, Aligned;
    ReadFits(s, f, m + n);
    OneCall(s, Read(f, m + n));
    ReadFits(s, f, m);
    var s1 := Next(s, Read(f, m));
    ReadFits(s1, f, n);
    TwoCalls(s, Read(f, m), Read(f, n));
    var p := s.pos[f];
    assert s.ram[p..p + m] + s.ram[p + m..p + m + n] == s.ram[p..p + m + n];
  }

  lemma SeekStep(s: State, f: nat, p: nat)
    requires Sound(s) && f < |s.pos| && Aligned(p) && p <= MAX_OFFSET
    ensures Allowed(s, Seek(f, p, SeekSet)) && Next(s, Seek(f, p, SeekSet)) == s.(pos := s.pos[f := p])
    ensures Sound(Next(s, Seek(f, p, SeekSet)))
  {}

  /** A seek from the start puts that file, and no other, at that address. */
  lemma SeekMoves(s: State, f: nat, p: nat)
    requires Sound(s) && f < |s.pos| && Aligned(p) && p <= MAX_OFFSET
    ensures Legal(s, [Seek(f, p, SeekSet)]) && Play(s, [Seek(f, p, SeekSet)]) == s.(pos := s.pos[f := p])
    ensures Replies(s, [Seek(f, p, SeekSet)]) == [Reply(Count(p), [])]
  {
    OneCall(s, Seek(f, p, SeekSet));
  }

  /** A relative seek goes from where the file is; by 0 it tells where that is. */
  lemma SeekAdds(s: State, f: nat, d: int)
    requires Sound(s) && f < |s.pos| && d % 1024 == 0 && 0 <= s.pos[f] + d <= MAX_OFFSET
    ensures Legal(s, [Seek(f, d, SeekCur)]) && Play(s, [Seek(f, d, SeekCur)]) == s.(pos := s.pos[f := s.pos[f] + d])
    ensures Replies(s, [Seek(f, d, SeekCur)]) == [Reply(Count(s.pos[f] + d), [])]
  {
    OneCall(s, Seek(f, d, SeekCur));
  }

  /** At the end there is nothing to read and no room to write. */
  lemma SeekToEnd(s: State, f: nat, user: seq<byte>, count: nat)
    requires Sound(s) && f < |s.pos|
    ensures Legal(s, [Seek(f, 0, SeekEnd), Write(f, user)]) && Legal(s, [Seek(f, 0, SeekEnd), Read(f, count)])
    ensures Replies(s, [Seek(f, 0, SeekEnd), Write(f, user)])[1] == Reply(Error(ENOSPC), [])
    ensures Replies(s, [Seek(f, 0, SeekEnd), Read(f, count)])[1] == Reply(Count(0), [])
    ensures Play(s, [Seek(f, 0, SeekEnd), Write(f, user)]).ram == s.ram
  {
    TwoCalls(s, Seek(f, 0, SeekEnd), Write(f, user));
    TwoCalls(s, Seek(f, 0, SeekEnd), Read(f, count));
  }

  /** A read that fits returns the bytes ahead of the file and moves it past them. */
  lemma ReadFits(s: State, f: nat, n: nat)
    requires Sound(s) && f < |s.pos| && Aligned(n) && n > 0 && s.pos[f] + n <= MAX_OFFSET
    ensures Allowed(s, Read(f, n)) && Next(s, Read(f, n)) == s.(pos := s.pos[f := s.pos[f] + n])
    ensures Sound(Next(s, Read(f, n)))
    ensures Call(s, Read(f, n)).ret == Count(n) && Call(s, Read(f, n)).data == s.ram[s.pos[f]..s.pos[f] + n]
  {}

  /** What one file writes at an address another reads back there, whichever devices
      they are on and wherever they were. */
  lemma WriteThenRead(s: State, f: nat, g: nat, p: nat, a: seq<byte>)
    requires Sound(s) && f < |s.pos| && g < |s.pos| && Aligned(p) && Aligned(|a|) && a != [] && p + |a| <= MAX_OFFSET
    ensures var ops := [Seek(f, p, SeekSet), Write(f, a), Seek(g, p, SeekSet), Read(g, |a|)];
            Legal(s, ops) && Replies(s, ops)[3] == Reply(Count(|a|), a)
            && Play(s, ops).pos == s.pos[f := p + |a|][g := p + |a|]
  {
    var o1, o2, more := Seek(f, p, SeekSet), Write(f, a), [Seek(g, p, SeekSet), Read(g, |a|)];
    assert |s.ram| == MAX_OFFSET;
    hide Next, Call, Legal, Play, Replies, Allowed, Sound, Aligned;
    SeekWrite(s, f, p, a);
    SeekRead(Next(Next(s, o1), o2), g, p, |a|);
    PlayMore(Next(s, o1), o2, more);
    PlayMore(s, o1, [o2] + more);
    assert [o1] + ([o2] + more) == [o1, o2, more[0], more[1]];
  }

  lemma SeekWrite(s: State, f: nat, p: nat, a: seq<byte>)
    requires Sound(s) && f < |s.pos| && Aligned(p) && Aligned(|a|) && p + |a| <= MAX_OFFSET
    ensures var o1, o2 := Seek(f, p, SeekSet), Write(f, a);
            && Allowed(s, o1) && Allowed(Next(s, o1), o2)
            && var m := Next(Next(s, o1), o2);
            Sound(m) && |Next(s, o1).ram| == MAX_OFFSET && m.pos == s.pos[f := p + |a|] && m.ram[p..p + |a|] == a
  {
    hide Next;
    SeekStep(s, f, p);
    WriteFits(Next(s, Seek(f, p, SeekSet)), f, a);
  }

  lemma SeekRead(s: State, g: nat, p: nat, n: nat)
    requires Sound(s) && g < |s.pos| && Aligned(p) && Aligned(n) && n > 0 && p + n <= MAX_OFFSET
    ensures var ops := [Seek(g, p, SeekSet), Read(g, n)];
            && Legal(s, ops) && |Replies(s, ops)| == 2 && Replies(s, ops)[1] == Reply(Count(n), s.ram[p..p + n])
            && Play(s, ops).pos == s.pos[g := p + n]
  {
    hide Next, Call, Legal, Play, Replies;
    SeekStep(s, g, p);
    ReadFits(Next(s, Seek(g, p, SeekSet)), g, n);
    TwoCalls(s, Seek(g, p, SeekSet), Read(g, n));
  }

  lemma PlayMore(s: State, a: Op, ops: seq<Op>)
    requires |s.ram| == MAX_OFFSET && Allowed(s, a) && Legal(Next(s, a), ops)
    ensures Legal(s, [a] + ops) && Play(s, [a] + ops) == Play(Next(s, a), ops)
    ensures Replies(s, [a] + ops) == [Reply(Call(s, a).ret, Call(s, a).data)] + Replies(Next(s, a), ops)
  {
    assert ([a] + ops)[1..] == ops;
  }
}
