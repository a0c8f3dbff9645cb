/**
  The count kept by the driver-write loop of handle_h2t when a write fails with an
  error other than EAGAIN: the code notes it and adds the -1 to its count.
 */
module MmlinkDriverErrors {
  import opened Counts
  import opened MmlinkSpec

  /** The loop's count, the bytes the driver has really taken, and the errors met. */
  datatype Tally = Tally(count: int, taken: nat, errors: nat)

  /** The loop over the results of successive writes of a buffer of len bytes.  The
      comparison of the count with the length is unsigned, so a negative count ends it. */
  function WriteLoop(len: nat, c: Tally, results: seq<Send>): Tally
    decreases |results|
  {
    if c.count < 0 || c.count >= len || results == [] then c
    else match results[0]
      case Again => c
      case Broken => WriteLoop(len, Tally(c.count - 1, c.taken, c.errors + 1), results[1..])
      case Took(n) =>
        if n == 0 then c
        else
          var k := Min(n, len - c.count);
          WriteLoop(len, Tally(c.count + k, c.taken + k, c.errors), results[1..])
  }

  lemma {:induction false} CountMissesErrors(len: nat, c: Tally, results: seq<Send>)
    requires c.count == c.taken - c.errors
    ensures var r := WriteLoop(len, c, results); r.count == r.taken - r.errors && r.errors >= c.errors
    decreases |results|
  {
    if !(c.count < 0 || c.count >= len || results == []) {
      match results[0]
      case Again =>
      case Broken => CountMissesErrors(len, Tally(c.count - 1, c.taken, c.errors + 1), results[1..]);
      case Took(n) =>
        var k := Min(n, len - c.count);
        CountMissesErrors(len, Tally(c.count + k, c.taken + k, c.errors), results[1..]);
    }
  }

  lemma {:induction false} WithoutErrors(len: nat, c: Tally, results: seq<Send>)
    requires c.errors == 0 && 0 <= c.count == c.taken <= len && WriteLoop(len, c, results).errors == 0
    ensures WriteLoop(len, c, results).count == c.count + Taken(len - c.count, results)
    decreases |results|
  {
    if c.count < len && results != [] {
      match results[0]
      case Again =>
      case Broken => CountMissesErrors(len, Tally(c.count - 1, c.taken, 1), results[1..]);
      case Took(n) =>
        var k := Min(n, len - c.count);
        if n > 0 { WithoutErrors(len, Tally(c.count + k, c.taken + k, 0), results[1..]); }
    }
  }

  lemma {:induction false} ErrorsMet(len: nat, c: Tally, results: seq<Send>)
    requires c.errors == 0 && 0 <= c.count == c.taken <= len
    ensures WriteLoop(len, c, results).errors == 0 <==> !Breaks(len - c.count, results)
    decreases |results|
  {
    if c.count < len && results != [] {
      match results[0]
      case Again =>
      case Broken => CountMissesErrors(len, Tally(c.count - 1, c.taken, 1), results[1..]);
      case Took(n) =>
        var k := Min(n, len - c.count);
        if n > 0 { ErrorsMet(len, Tally(c.count + k, c.taken + k, 0), results[1..]); }
    }
  }

  /** The bytes dropped from the buffer are the bytes the driver took if and only if
      the driver's answers, up to where all is taken or nothing more is, hold no such
      error; and then they are the ones of the error-free loop. */
  lemma CountIsRightIff(len: nat, results: seq<Send>)
    ensures var r := WriteLoop(len, Tally(0, 0, 0), results);
            && (r.count == r.taken <==> !Breaks(len, results))
            && (!Breaks(len, results) ==> r.count == Taken(len, results))
  {
    CountMissesErrors(len, Tally(0, 0, 0), results);
    ErrorsMet(len, Tally(0, 0, 0), results);
    if !Breaks(len, results) { WithoutErrors(len, Tally(0, 0, 0), results); }
  }

  /** An error on the first write makes the buffer one byte longer than it was, so a
      full one is then longer than the array. */
  lemma FirstErrorLengthensBuffer(len: nat, results: seq<Send>)
    requires len > 0 && results != [] && results[0] == Broken
    ensures var r := WriteLoop(len, Tally(0, 0, 0), results); r == Tally(-1, 0, 1) && len - r.count == len + 1
  {}
}
