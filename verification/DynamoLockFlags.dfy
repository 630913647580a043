/** Two raw flags at once are reachable in dynamolock as well. */
module DynamoLockFlags {
  import opened Common
  import opened LeaseRegister
  import opened DynamoLockProtocol
  import opened DynamoLockTheorems
  import opened DynamoLockTakeover

  predicate By(c: string, a: Action) {
    !a.AdvanceTable? && !a.TimeToLive? && a.who == c
  }

  predicate AllBy(c: string, run: seq<Action>) {
    forall i :: 0 <= i < |run| ==> By(c, run[i])
  }

  lemma NextLeavesOthers(s: State, act: Action, c: string, o: string)
    requires By(c, act) && o != c && o in s.electors
    ensures o in Next(s, act).electors && Next(s, act).electors[o] == s.electors[o]
  {
  }

  /** The steps of one elector leave every other elector as it was. */
  lemma {:induction false} RunLeavesOthers(s: State, run: seq<Action>, c: string, o: string)
    requires AllBy(c, run) && o != c && o in s.electors
    ensures o in Exec(s, run).electors && Exec(s, run).electors[o] == s.electors[o]
    decreases |run|
  {
    if run != [] {
      assert By(c, run[0]);
      NextLeavesOthers(s, run[0], c, o);
      forall i | 0 <= i < |run[1..]| ensures By(c, run[1..][i]) {
        assert By(c, run[i + 1]);
      }
      RunLeavesOthers(Next(s, run[0]), run[1..], c, o);
    }
  }

  lemma TickIsBy(s: State, c: string)
    requires c in s.electors
    ensures AllBy(c, FaultFreeTick(s, c))
  {
  }

  /** Beside any other raised flag, one fault-free tick of a challenger raises a second
      exactly when the item is absent, the challenger's own, or outdated on its clock. */
  lemma SecondFlag(s: State, a: string, b: string)
    requires Inv(s) && a in s.electors && a != b && Ready(s, b) && s.electors[a].leader
    ensures var s' := Exec(s, FaultFreeTick(s, b));
      && a in s'.electors && b in s'.electors && s'.electors[a].leader
      && (s'.electors[b].leader <==> Takeable(Abs(s), b, s.electors[b].clock))
  {
    FaultFreeOutcome(s, b);
    TickIsBy(s, b);
    RunLeavesOthers(s, FaultFreeTick(s, b), b, a);
  }

  /** Two started electors, one of which leads. */
  lemma FirstFlag(s: State, a: string, b: string) returns (run: seq<Action>)
    requires Init(s) && s.stored.None? && a in s.electors && b in s.electors && a != b
    ensures var s' := Exec(s, run);
      && Inv(s') && Ready(s', a) && Ready(s', b) && s'.electors[a].leader
      && Abs(s') == Held(a, (s.electors[a].clock + 3 * s.electors[a].lease) / 1_000_000_000)
  {
    var s2 := BothStarted(s, a, b);
    FaultFreeOutcome(s2, a);
    TickIsBy(s2, a);
    RunLeavesOthers(s2, FaultFreeTick(s2, a), a, b);
    run := [Start(a)] + [Start(b)] + FaultFreeTick(s2, a);
    ExecConcat(s, [Start(a)] + [Start(b)], FaultFreeTick(s2, a));
  }

  lemma BothStarted(s: State, a: string, b: string) returns (s2: State)
    requires Init(s) && s.stored.None? && a in s.electors && b in s.electors && a != b
    ensures s2 == Exec(s, [Start(a)] + [Start(b)]) && Inv(s2) && s2.stored.None? && Ready(s2, a) && Ready(s2, b)
    ensures s2.electors[a].clock == s.electors[a].clock && s2.electors[a].lease == s.electors[a].lease
  {
    InitInv(s);
    NextInv(s, Start(a));
    var s1 := Next(s, Start(a));
    NextInv(s1, Start(b));
    s2 := Next(s1, Start(b));
    ExecOne(s, Start(a));
    ExecOne(s1, Start(b));
    ExecConcat(s, [Start(a)], [Start(b)]);
  }

  /** From every start with an absent item, any two electors can come to have their
      flags set at the same time. */
  lemma TwoFlags(s: State, a: string, b: string) returns (run: seq<Action>)
    requires Init(s) && s.stored.None? && a in s.electors && b in s.electors && a != b
    ensures var s' := Exec(s, run);
      a in s'.electors && b in s'.electors && s'.electors[a].leader && s'.electors[b].leader
  {
    var first := FirstFlag(s, a, b);
    var s1 := Exec(s, first);
    var until := Abs(s1).until;
    var late := (until + 1) * SECOND;
    var wait := Advance(b, if late <= s1.electors[b].clock then s1.electors[b].clock else late);
    NextInv(s1, wait);
    NextLeavesOthers(s1, wait, b, a);
    ExecOne(s1, wait);
    var s2 := Next(s1, wait);
    Past(until, s2.electors[b].clock);
    SecondFlag(s2, a, b);
    run := first + ([wait] + FaultFreeTick(s2, b));
    ExecConcat(s1, [wait], FaultFreeTick(s2, b));
    ExecConcat(s, first, [wait] + FaultFreeTick(s2, b));
  }
}
