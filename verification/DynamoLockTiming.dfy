/** What the factor of three buys in dynamolock, with deadlines in whole seconds. */
module DynamoLockTiming {
  import opened Common
  import opened Cadence
  import opened LeaseRegister
  import opened DynamoLockProtocol
  import opened DynamoLockTheorems
  import opened DynamoLockTakeover
  import opened DynamoLockFlags

  /** A holder whose next tick starts no later than one interval after this one starts it
      with two leases left, but for the fraction of a second cut off. */
  lemma RenewalMargin(s: State, c: string, next: int)
    requires Inv(s) && Ready(s, c) && s.electors[c].lease > 0
    requires Takeable(Abs(s), c, s.electors[c].clock)
    requires next <= s.electors[c].clock + Interval(s.electors[c].lease)
    ensures var s' := Exec(s, FaultFreeTick(s, c));
      Abs(s').Held? && Abs(s').owner == c &&
      next + 2 * s.electors[c].lease < (Abs(s').until + 1) * 1_000_000_000
  {
    FaultFreeOutcome(s, c);
    UnixBounds(s.electors[c].clock + 3 * s.electors[c].lease);
  }

  /** A holder whose last tick starts at `t` and then falls silent is replaced by a
      challenger only after `t + 3 * Lease`, and by a tick that starts before one second
      and one interval of the challenger more. */
  lemma TakeoverAfterTick(s: State, h: string, c: string, rounds: seq<Round>) returns (k: nat)
    requires Inv(s) && Ready(s, h) && Ready(s, c) && h != c
    requires Takeable(Abs(s), h, s.electors[h].clock) && s.electors[c].lease > 0 && rounds != []
    requires Regular(s.electors[c], c, rounds)
    requires rounds[0].at < s.electors[h].clock + 3 * s.electors[h].lease + Interval(s.electors[c].lease)
    requires s.electors[h].clock + 3 * s.electors[h].lease + 1_000_000_000 <= rounds[|rounds| - 1].at
    ensures k < |rounds|
    ensures var end := s.electors[h].clock + 3 * s.electors[h].lease;
      end < rounds[k].at < end + 1_000_000_000 + Interval(s.electors[c].lease)
    ensures var s1 := Exec(s, FaultFreeTick(s, h));
      && (forall j :: 0 < j <= k ==> FlagAfter(s1, c, rounds, j, false))
      && FlagAfter(s1, c, rounds, k + 1, true)
  {
    FaultFreeOutcome(s, h);
    TickIsBy(s, h);
    RunLeavesOthers(s, FaultFreeTick(s, h), h, c);
    UnixBounds(s.electors[h].clock + 3 * s.electors[h].lease);
    k := BoundedTakeover(Exec(s, FaultFreeTick(s, h)), c, rounds, h,
                         (s.electors[h].clock + 3 * s.electors[h].lease) / 1_000_000_000);
  }
}
