/**
  The bounded wait for the flag: a deadline with a carried microsecond count, and
  a comparison of seconds and of microseconds taken separately.
 */
module ValidatorTimeout {
  import opened Validator

  datatype Time = Time(sec: nat, usec: nat)

  predicate Normal(t: Time) { t.usec < 1000000 }

  function Micros(t: Time): nat { t.sec * 1000000 + t.usec }

  /** The start time plus the allowance, carried into the seconds. */
  function Deadline(start: Time, allowance: nat): Time {
    if start.usec + allowance >= 1000000 then Time(start.sec + 1, start.usec + allowance - 1000000)
    else Time(start.sec, start.usec + allowance)
  }

  predicate Fires(now: Time, deadline: Time) { now.sec >= deadline.sec && now.usec >= deadline.usec }

  /** The wait never gives up before its allowance is used. */
  lemma NeverEarly(start: Time, allowance: nat, now: Time)
    requires Normal(start) && allowance <= 1000000
    ensures Normal(Deadline(start, allowance))
    ensures Micros(Deadline(start, allowance)) == Micros(start) + allowance
    ensures Fires(now, Deadline(start, allowance)) ==> Micros(now) >= Micros(start) + allowance
  {}

  /** The comparison is the intended one exactly for deadlines on a whole second. */
  lemma ExactOnWholeSeconds(deadline: Time)
    requires Normal(deadline)
    ensures (forall now: Time | Normal(now) :: Fires(now, deadline) <==> Micros(now) >= Micros(deadline))
            <==> deadline.usec == 0
  {
    if deadline.usec != 0 {
      var now := Time(deadline.sec + 1, 0);
      assert Normal(now) && !Fires(now, deadline) && Micros(now) >= Micros(deadline);
    }
  }

  /** For any other deadline, polls can miss it by any amount of time. */
  lemma MayBeMissedByAnyAmount(deadline: Time, late: nat) returns (now: Time)
    requires Normal(deadline) && deadline.usec != 0
    ensures Normal(now) && Micros(now) >= Micros(deadline) + late && !Fires(now, deadline)
  {
    now := Time(deadline.sec + late + 1, 0);
  }

  /** What the clock and the flag show in one round of the wait. */
  datatype Poll = Poll(now: Time, flag: Flag)

  datatype Outcome = Answered(round: nat) | TimedOut(round: nat) | StillWaiting

  /** The wait loop: look at the clock, give up or look at the flag. */
  method WaitForFlag(start: Time, allowance: nat, polls: seq<Poll>) returns (r: Outcome)
    requires Normal(start) && allowance <= 1000000
    ensures r.StillWaiting? ==> forall i | 0 <= i < |polls| ::
              polls[i].flag == NiosOwns && !Fires(polls[i].now, Deadline(start, allowance))
    ensures !r.StillWaiting? ==> r.round < |polls| && forall i | 0 <= i < r.round ::
              polls[i].flag == NiosOwns && !Fires(polls[i].now, Deadline(start, allowance))
    ensures r.Answered? ==> polls[r.round].flag == ArmOwns && !Fires(polls[r.round].now, Deadline(start, allowance))
    ensures r.TimedOut? ==> Fires(polls[r.round].now, Deadline(start, allowance))
                            && Micros(polls[r.round].now) >= Micros(start) + allowance
  {
    var deadline := Deadline(start, allowance);
    var i := 0;
    while i < |polls|
      invariant 0 <= i <= |polls|
      invariant forall j | 0 <= j < i :: polls[j].flag == NiosOwns && !Fires(polls[j].now, deadline)
    {
      if polls[i].now.sec >= deadline.sec && polls[i].now.usec >= deadline.usec {
        NeverEarly(start, allowance, polls[i].now);
        return TimedOut(i);
      }
      if polls[i].flag == ArmOwns {
        return Answered(i);
      }
      i := i + 1;
    }
    return StillWaiting;
  }
}
