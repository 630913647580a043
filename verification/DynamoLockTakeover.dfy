/** Bounded takeover for dynamolock: as in S3LockTakeover, but a steal waits until
    the clock, in whole seconds, is past `lease_until`. */
module DynamoLockTakeover {
  import opened Common
  import opened Cadence
  import opened LeaseRegister
  import opened DynamoLockProtocol
  import opened DynamoLockTheorems

  predicate Ready(s: State, c: string) {
    c in s.electors && s.electors[c].phase.Running? && s.electors[c].pc.Idle?
  }

  predicate Takeable(r: Register, c: string, now: int) {
    r.Free? || r.owner == c || r.until < Unix(now)
  }

  /** The steps of one tick of `c` when every call is answered and nobody else moves. */
  function FaultFreeTick(s: State, c: string): seq<Action>
    requires c in s.electors
  {
    var claim := [BeginTick(c), Deliver(c, true), Answer(c, false)];
    if Takeable(Abs(s), c, s.electors[c].clock) then claim + [Update(c), Update(c)]
    else claim + [Deliver(c, true), Answer(c, false), Update(c)]
  }

  lemma ExecOne(s: State, a: Action)
    ensures Exec(s, [a]) == Next(s, a)
  {
    assert [a][1..] == [];
    assert Exec(Next(s, a), []) == Next(s, a);
  }

  lemma Exec3(s: State, a: Action, b: Action, c: Action)
    ensures Exec(s, [a, b, c]) == Next(Next(Next(s, a), b), c)
  {
    assert [a, b, c][1..] == [b, c] && [b, c][1..] == [c] && [c][1..] == [];
    assert Exec(Next(Next(Next(s, a), b), c), []) == Next(Next(Next(s, a), b), c);
    assert Exec(Next(Next(s, a), b), [c]) == Exec(Next(Next(Next(s, a), b), c), []);
    assert Exec(Next(s, a), [b, c]) == Exec(Next(Next(s, a), b), [c]);
  }

  /** The elector `c` of `s1` is where it was in `s`, but for its program counter. */
  predicate Along(s: State, s1: State, c: string, pc: Pc) {
    && c in s.electors && c in s1.electors
    && s1.electors[c].phase == s.electors[c].phase && s1.electors[c].clock == s.electors[c].clock
    && s1.electors[c].lease == s.electors[c].lease && s1.electors[c].pc == pc
  }

  /** The conditional put, served and answered. */
  lemma Claimed(s: State, c: string) returns (s1: State)
    requires Inv(s) && Ready(s, c)
    ensures s1 == Exec(s, [BeginTick(c), Deliver(c, true), Answer(c, false)])
    ensures var l := s.electors[c];
      if Takeable(Abs(s), c, l.clock) then
        Along(s, s1, c, Acked(NextVersion(l.heldVersion), l.clock)) &&
        Abs(s1) == Held(c, (l.clock + 3 * l.lease) / 1_000_000_000)
      else Along(s, s1, c, Calling(GetItem, l.clock, None)) && s1.stored == s.stored
  {
    Exec3(s, BeginTick(c), Deliver(c, true), Answer(c, false));
    s1 := Exec(s, [BeginTick(c), Deliver(c, true), Answer(c, false)]);
  }

  /** The read after a failed put, and stepping down. */
  lemma Inspected(s: State, c: string, now: int) returns (s1: State)
    requires c in s.electors && s.electors[c].pc == Calling(GetItem, now, None) && s.electors[c].phase.Running?
    requires s.stored.Some? && s.stored.value.owner != c
    ensures s1 == Exec(s, [Deliver(c, true), Answer(c, false), Update(c)])
    ensures Along(s, s1, c, Idle) && !s1.electors[c].leader && s1.stored == s.stored
  {
    Exec3(s, Deliver(c, true), Answer(c, false), Update(c));
    s1 := Exec(s, [Deliver(c, true), Answer(c, false), Update(c)]);
  }

  lemma Settled(s: State, c: string) returns (s1: State)
    requires c in s.electors && s.electors[c].pc.Acked? && s.electors[c].phase.Running?
    ensures s1 == Exec(s, [Update(c), Update(c)])
    ensures Along(s, s1, c, Idle) && s1.electors[c].leader && s1.stored == s.stored
  {
    assert [Update(c), Update(c)][1..] == [Update(c)] && [Update(c)][1..] == [];
    s1 := Next(Next(s, Update(c)), Update(c));
    assert Exec(s1, []) == s1;
    assert Exec(Next(s, Update(c)), [Update(c)]) == s1;
  }

  /** After the tick `c` is leader exactly when it could take the item, whose lease
      then ends 3 * Lease after the tick's start; otherwise nothing moved. */
  lemma FaultFreeOutcome(s: State, c: string)
    requires Inv(s) && Ready(s, c)
    ensures var s' := Exec(s, FaultFreeTick(s, c));
            var l := s.electors[c];
      && Inv(s') && Ready(s', c) && s'.electors[c].clock == l.clock && s'.electors[c].lease == l.lease
      && s'.electors[c].leader == Takeable(Abs(s), c, l.clock)
      && Abs(s') == (if Takeable(Abs(s), c, l.clock) then Held(c, (l.clock + 3 * l.lease) / 1_000_000_000) else Abs(s))
  {
    var l := s.electors[c];
    ExecInv(s, FaultFreeTick(s, c));
    var claim := [BeginTick(c), Deliver(c, true), Answer(c, false)];
    var s1 := Claimed(s, c);
    if Takeable(Abs(s), c, l.clock) {
      var _ := Settled(s1, c);
      ExecConcat(s, claim, [Update(c), Update(c)]);
    } else {
      var _ := Inspected(s1, c, l.clock);
      ExecConcat(s, claim, [Deliver(c, true), Answer(c, false), Update(c)]);
    }
  }

  /** One tick of a campaign: when it starts on the challenger's clock, and how the
      other clocks move before it. */
  datatype Round = Round(at: int, others: seq<Action>)

  predicate OnlyClocks(c: string, env: seq<Action>) {
    forall i :: 0 <= i < |env| ==> env[i].AdvanceTable? || (env[i].Advance? && env[i].who != c)
  }

  function Before(s: State, c: string, r: Round): State {
    Exec(Next(s, Advance(c, r.at)), r.others)
  }

  function After(s: State, c: string, r: Round): State {
    var s1 := Before(s, c, r);
    if Ready(s1, c) then Exec(s1, FaultFreeTick(s1, c)) else s1
  }

  lemma {:induction false} ClocksFrame(s: State, c: string, env: seq<Action>)
    requires Inv(s) && c in s.electors && OnlyClocks(c, env)
    ensures var s' := Exec(s, env);
      Inv(s') && c in s'.electors && s'.electors[c] == s.electors[c] && s'.stored == s.stored
    decreases |env|
  {
    if env != [] {
      NextInv(s, env[0]);
      ClocksFrame(Next(s, env[0]), c, env[1..]);
    }
  }

  /** The state after the first `k` rounds. */
  function Campaign(s: State, c: string, rounds: seq<Round>, k: nat): State
    requires k <= |rounds|
    decreases k
  {
    if k == 0 then s else After(Campaign(s, c, rounds, k - 1), c, rounds[k - 1])
  }

  function Starts(rounds: seq<Round>): seq<int> {
    seq(|rounds|, i requires 0 <= i < |rounds| => rounds[i].at)
  }

  /** The rounds start in order, at most one interval apart. */
  predicate Regular(l: Local, c: string, rounds: seq<Round>)
    requires l.lease > 0
  {
    && (forall i :: 0 <= i < |rounds| ==> OnlyClocks(c, rounds[i].others))
    && (rounds != [] ==> l.clock <= rounds[0].at)
    && Paced(Starts(rounds), Interval(l.lease))
  }

  /** What a round makes of `s`: the challenger leads exactly when it could take the
      item, whose lease then ends 3 * Lease after the round's start. */
  predicate RoundDone(s: State, s': State, c: string, r: Round)
    requires c in s.electors
  {
    var lease := s.electors[c].lease;
    && Inv(s') && Ready(s', c) && s'.electors[c].clock == r.at && s'.electors[c].lease == lease
    && s'.electors[c].leader == Takeable(Abs(s), c, r.at)
    && Abs(s') == (if Takeable(Abs(s), c, r.at) then Held(c, (r.at + 3 * lease) / 1_000_000_000) else Abs(s))
  }

  lemma RoundOutcome(s: State, c: string, r: Round)
    requires Inv(s) && Ready(s, c) && OnlyClocks(c, r.others) && s.electors[c].clock <= r.at
    ensures RoundDone(s, After(s, c, r), c, r)
  {
    NextInv(s, Advance(c, r.at));
    ClocksFrame(Next(s, Advance(c, r.at)), c, r.others);
    FaultFreeOutcome(Before(s, c, r), c);
  }

  lemma Past(until: int, t: int)
    ensures until < Unix(t) <==> (until + 1) * SECOND <= t
  {
    UnixBounds(t);
  }

  predicate FlagAfter(s: State, c: string, rounds: seq<Round>, k: nat, flag: bool)
    requires k <= |rounds|
  {
    var s' := Campaign(s, c, rounds, k);
    c in s'.electors && s'.electors[c].leader == flag
  }

  /** After `k` rounds, nothing has changed but the challenger's clock, and if there
      was a round it is not leader. */
  predicate Waited(s: State, s': State, c: string, rounds: seq<Round>, k: nat)
    requires c in s.electors && k < |rounds|
  {
    && Inv(s') && Ready(s', c) && Abs(s') == Abs(s) && s'.electors[c].lease == s.electors[c].lease
    && s'.electors[c].clock <= rounds[k].at && (k > 0 ==> !s'.electors[c].leader)
  }

  lemma WaitOnce(s: State, s1: State, c: string, rounds: seq<Round>, k: nat)
    requires c in s.electors && s.electors[c].lease > 0 && Regular(s.electors[c], c, rounds) && k + 1 < |rounds|
    requires Waited(s, s1, c, rounds, k) && !Takeable(Abs(s), c, rounds[k].at)
    ensures Waited(s, After(s1, c, rounds[k]), c, rounds, k + 1)
  {
    RoundOutcome(s1, c, rounds[k]);
    WaitedOnce(s, s1, After(s1, c, rounds[k]), c, rounds, k);
  }

  lemma WaitedOnce(s: State, s1: State, s2: State, c: string, rounds: seq<Round>, k: nat)
    requires c in s.electors && s.electors[c].lease > 0 && Regular(s.electors[c], c, rounds) && k + 1 < |rounds|
    requires Waited(s, s1, c, rounds, k) && !Takeable(Abs(s), c, rounds[k].at) && RoundDone(s1, s2, c, rounds[k])
    ensures Waited(s, s2, c, rounds, k + 1)
  {
    assert Starts(rounds)[k] <= Starts(rounds)[k + 1];
  }

  /** Rounds that start too early change nothing but the challenger's clock. */
  lemma {:induction false} Waiting(s: State, c: string, rounds: seq<Round>, k: nat, holder: string, until: int)
    requires Inv(s) && Ready(s, c) && s.electors[c].lease > 0 && Regular(s.electors[c], c, rounds) && k < |rounds|
    requires Abs(s) == Held(holder, until) && holder != c
    requires forall i :: 0 <= i < k ==> rounds[i].at < (until + 1) * SECOND
    ensures Waited(s, Campaign(s, c, rounds, k), c, rounds, k)
    decreases k
  {
    if k > 0 {
      Waiting(s, c, rounds, k - 1, holder, until);
      Past(until, rounds[k - 1].at);
      WaitOnce(s, Campaign(s, c, rounds, k - 1), c, rounds, k - 1);
    }
  }

  /** Bounded takeover: against a silent holder whose item says `until`, the
      challenger is not leader after any round that starts before second
      `until + 1`, and is leader after the first that does not, which starts before
      that second plus one interval. */
  lemma BoundedTakeover(s: State, c: string, rounds: seq<Round>, holder: string, until: int) returns (k: nat)
    requires Inv(s) && Ready(s, c) && s.electors[c].lease > 0 && Regular(s.electors[c], c, rounds) && rounds != []
    requires Abs(s) == Held(holder, until) && holder != c
    requires rounds[0].at < (until + 1) * SECOND + Interval(s.electors[c].lease)
    requires (until + 1) * SECOND <= rounds[|rounds| - 1].at
    ensures k < |rounds| && (until + 1) * SECOND <= rounds[k].at < (until + 1) * SECOND + Interval(s.electors[c].lease)
    ensures forall j :: 0 < j <= k ==> FlagAfter(s, c, rounds, j, false)
    ensures FlagAfter(s, c, rounds, k + 1, true)
    ensures Abs(Campaign(s, c, rounds, k + 1)) == Held(c, (rounds[k].at + 3 * s.electors[c].lease) / 1_000_000_000)
  {
    k := FirstStart(Starts(rounds), Interval(s.electors[c].lease), (until + 1) * SECOND);
    forall i | 0 <= i < k ensures rounds[i].at < (until + 1) * SECOND {
      assert Starts(rounds)[i] == rounds[i].at;
    }
    forall j | 0 < j <= k ensures FlagAfter(s, c, rounds, j, false) {
      Waiting(s, c, rounds, j, holder, until);
    }
    Waiting(s, c, rounds, k, holder, until);
    Past(until, rounds[k].at);
    RoundOutcome(Campaign(s, c, rounds, k), c, rounds[k]);
  }
}
