/** What the factor of three buys: a renewal is due long before the lease ends, and a
    silent holder keeps it for three leases and is replaced within one interval more. */
module S3LockTiming {
  import opened Common
  import opened Cadence
  import opened LeaseRegister
  import opened S3LockProtocol
  import opened S3LockSafety
  import opened S3LockTakeover
  import opened S3LockFlags

  /** A holder whose next tick starts no later than one interval after this one starts it
      with two leases left. */
  lemma RenewalMargin(s: State, c: string, tag: string, next: int)
    requires Inv(s) && Ready(s, c) && tag != "" && tag !in s.bodies && s.electors[c].lease > 0
    requires Takeable(Abs(s), c, s.electors[c].clock)
    requires next <= s.electors[c].clock + Interval(s.electors[c].lease)
    ensures var s' := Exec(s, FaultFreeTick(s, c, tag));
      Abs(s').Held? && Abs(s').owner == c && next + 2 * s.electors[c].lease <= Abs(s').until
  {
    FaultFreeOutcome(s, c, tag);
  }

  /** A holder whose last tick starts at `t` and then falls silent is replaced by a
      challenger not before `t + 3 * Lease`, and by a tick that starts before one
      interval of the challenger more. */
  lemma TakeoverAfterTick(s: State, h: string, c: string, tag: string, rounds: seq<Round>) returns (k: nat)
    requires Inv(s) && Ready(s, h) && Ready(s, c) && h != c && tag != "" && tag !in s.bodies
    requires Takeable(Abs(s), h, s.electors[h].clock) && s.electors[c].lease > 0 && rounds != []
    requires var s1 := Exec(s, FaultFreeTick(s, h, tag));
      c in s1.electors && s1.electors[c].lease > 0 && Regular(s1, c, rounds)
    requires rounds[0].at < s.electors[h].clock + 3 * s.electors[h].lease + Interval(s.electors[c].lease)
    requires s.electors[h].clock + 3 * s.electors[h].lease <= rounds[|rounds| - 1].at
    ensures k < |rounds|
    ensures var end := s.electors[h].clock + 3 * s.electors[h].lease;
      end <= rounds[k].at < end + Interval(s.electors[c].lease)
    ensures var s1 := Exec(s, FaultFreeTick(s, h, tag));
      && (forall j :: 0 < j <= k ==> FlagAfter(s1, c, rounds, j, false))
      && FlagAfter(s1, c, rounds, k + 1, true)
  {
    FaultFreeOutcome(s, h, tag);
    TickIsBy(s, h, tag);
    RunLeavesOthers(s, FaultFreeTick(s, h, tag), h, c);
    var s1 := Exec(s, FaultFreeTick(s, h, tag));
    k := BoundedTakeover(s1, c, rounds, h, s.electors[h].clock + 3 * s.electors[h].lease);
  }

  /** An undecodable object is taken by the first tick. */
  lemma CorruptIsTaken(s: State, c: string, tag: string)
    requires Inv(s) && Ready(s, c) && tag != "" && tag !in s.bodies && s.electors[c].clock >= ZERO_TIME
    requires s.stored.Some? && s.stored.value.body.Corrupt?
    ensures var s' := Exec(s, FaultFreeTick(s, c, tag));
            var l := s.electors[c];
      c in s'.electors && s'.electors[c].leader && Abs(s') == Held(c, l.clock + 3 * l.lease)
  {
    FaultFreeOutcome(s, c, tag);
  }
}
