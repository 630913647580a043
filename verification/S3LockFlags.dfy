/** Why exclusion is stated on leases: two raw flags at once are reachable. */
module S3LockFlags {
  import opened LeaseRegister
  import opened S3LockProtocol
  import opened S3LockSafety
  import opened S3LockTakeover

  predicate By(c: string, a: Action) {
    if a.Deliver? then a.req.owner == c else a.who == c
  }

  predicate AllBy(c: string, run: seq<Action>) {
    forall i :: 0 <= i < |run| ==> By(c, run[i])
  }

  lemma NextLeavesOthers(s: State, act: Action, c: string, o: string)
    requires By(c, act) && o != c && o in s.electors
    ensures o in Next(s, act).electors && Next(s, act).electors[o] == s.electors[o]
  {
  }

  /** The steps of one elector leave every other elector as it was. */
  lemma {:induction false} RunLeavesOthers(s: State, run: seq<Action>, c: string, o: string)
    requires AllBy(c, run) && o != c && o in s.electors
    ensures o in Exec(s, run).electors && Exec(s, run).electors[o] == s.electors[o]
    decreases |run|
  {
    if run != [] {
      assert By(c, run[0]);
      NextLeavesOthers(s, run[0], c, o);
      forall i | 0 <= i < |run[1..]| ensures By(c, run[1..][i]) {
        assert By(c, run[i + 1]);
      }
      RunLeavesOthers(Next(s, run[0]), run[1..], c, o);
    }
  }

  lemma TickIsBy(s: State, c: string, tag: string)
    requires Ready(s, c)
    ensures AllBy(c, FaultFreeTick(s, c, tag))
  {
  }

  /** A flag survives the end of its lease: one fault-free tick of a challenger raises
      a second flag exactly when the record is absent, the challenger's own, or run out
      on its clock, whoever else's flag is up. */
  lemma SecondFlag(s: State, a: string, b: string, tag: string)
    requires Inv(s) && a in s.electors && a != b && Ready(s, b) && tag != "" && tag !in s.bodies
    requires s.electors[a].leader
    ensures var s' := Exec(s, FaultFreeTick(s, b, tag));
      && a in s'.electors && b in s'.electors && s'.electors[a].leader
      && (s'.electors[b].leader <==> Takeable(Abs(s), b, s.electors[b].clock))
  {
    FaultFreeOutcome(s, b, tag);
    TickIsBy(s, b, tag);
    RunLeavesOthers(s, FaultFreeTick(s, b, tag), b, a);
  }

  /** Started electors whose clocks agree, one of which leads. */
  lemma FirstFlag(s: State, a: string, b: string, tag: string) returns (run: seq<Action>)
    requires Init(s) && s.stored.None? && a in s.electors && b in s.electors && a != b
    requires tag != "" && tag !in s.bodies
    ensures var s' := Exec(s, run);
      && Inv(s') && Ready(s', a) && Ready(s', b) && s'.electors[a].leader
      && Abs(s') == Held(a, s.electors[a].clock + 3 * s.electors[a].lease)
      && s'.electors[b].clock == s.electors[b].clock && s'.bodies.Keys <= s.bodies.Keys + {tag}
  {
    InitInv(s);
    NextInv(s, Start(a));
    var s1 := Next(s, Start(a));
    NextInv(s1, Start(b));
    var s2 := Next(s1, Start(b));
    ExecOne(s, Start(a));
    ExecOne(s1, Start(b));
    ExecConcat(s, [Start(a)], [Start(b)]);
    FaultFreeOutcome(s2, a, tag);
    TickIsBy(s2, a, tag);
    RunLeavesOthers(s2, FaultFreeTick(s2, a, tag), a, b);
    run := [Start(a)] + [Start(b)] + FaultFreeTick(s2, a, tag);
    ExecConcat(s, [Start(a)] + [Start(b)], FaultFreeTick(s2, a, tag));
  }

  /** From every start with an absent object, any two electors can come to have their
      flags set at the same time. */
  lemma TwoFlags(s: State, a: string, b: string, tagA: string, tagB: string) returns (run: seq<Action>)
    requires Init(s) && s.stored.None? && a in s.electors && b in s.electors && a != b
    requires tagA != "" && tagA !in s.bodies && tagB != "" && tagB !in s.bodies && tagA != tagB
    ensures var s' := Exec(s, run);
      a in s'.electors && b in s'.electors && s'.electors[a].leader && s'.electors[b].leader
  {
    var first := FirstFlag(s, a, b, tagA);
    var s1 := Exec(s, first);
    var until := Abs(s1).until;
    var wait := Advance(b, if until <= s1.electors[b].clock then s1.electors[b].clock else until);
    NextInv(s1, wait);
    NextLeavesOthers(s1, wait, b, a);
    ExecOne(s1, wait);
    var s2 := Next(s1, wait);
    SecondFlag(s2, a, b, tagB);
    run := first + ([wait] + FaultFreeTick(s2, b, tagB));
    ExecConcat(s1, [wait], FaultFreeTick(s2, b, tagB));
    ExecConcat(s, first, [wait] + FaultFreeTick(s2, b, tagB));
  }
}
