/** How long a free or expired s3lock stays without a leader: a challenger that
    ticks regularly against a fault-free backend takes over a silent holder's lease
    within one renewal interval of its end. */
module S3LockTakeover {
  import opened Common
  import opened Cadence
  import opened LeaseRegister
  import opened S3LockProtocol
  import opened S3LockSafety

  predicate Ready(s: State, c: string) {
    c in s.electors && s.electors[c].phase.Running? && s.electors[c].pc.Idle?
  }

  /** May `c` take the register at clock reading `now`? */
  predicate Takeable(r: Register, c: string, now: int) {
    r.Free? || r.owner == c || r.until <= now
  }

  function Serving(c: string, req: Request, tag: string): seq<Action> {
    [Deliver(req, tag, true), Answer(c, false)]
  }

  function Claim(c: string, l: Local, tag: string): seq<Action> {
    [BeginTick(c)] + Serving(c, Put(c, l.clock, l.lease, IfNoneMatch), tag)
  }

  function Replacing(c: string, l: Local, etag: string, tag: string): seq<Action> {
    Serving(c, Put(c, l.clock, l.lease, IfMatch(etag)), tag)
  }

  function Settle(c: string): seq<Action> { [Update(c), Update(c)] }

  /** The steps of one tick of `c` when every call is answered and nobody else
      moves; `tag` is the ETag of the version it may write. */
  function FaultFreeTick(s: State, c: string, tag: string): seq<Action>
    requires Ready(s, c)
  {
    var l := s.electors[c];
    if s.stored.None? then Claim(c, l, tag) + Settle(c)
    else if Takeable(Abs(s), c, l.clock) then
      Claim(c, l, tag) + (Serving(c, Get(c), tag) + (Replacing(c, l, s.stored.value.etag, tag) + Settle(c)))
    else Claim(c, l, tag) + (Serving(c, Get(c), tag) + [Update(c)])
  }

  /** A call that is answered: the reply is what the backend does to the object. */
  lemma Answered(s: State, c: string, req: Request, now: int, tag: string)
    requires Inv(s) && c in s.electors && s.electors[c].pc == Calling(req, now, None) && req in s.sent
    requires tag != "" && tag !in s.bodies && req.owner == c
    ensures var (stored, reply) := Serve(s.stored, req, tag);
            var s1 := Exec(s, [Deliver(req, tag, true)]);
      && Inv(s1) && s1.stored == stored && s1.sent == s.sent
      && s1.electors == s.electors[c := s.electors[c].(pc := Calling(req, now, Some(reply)))]
      && (!reply.Written? ==> s1.bodies == s.bodies)
      && s1.bodies.Keys <= s.bodies.Keys + {tag}
  {
    ExecOne(s, Deliver(req, tag, true));
    NextInv(s, Deliver(req, tag, true));
  }

  lemma ExecOne(s: State, a: Action)
    ensures Exec(s, [a]) == Next(s, a)
  {
    assert [a][1..] == [];
    assert Exec(Next(s, a), []) == Next(s, a);
  }

  /** One request of `c` is served and its answer received. */
  lemma RoundTrip(s: State, c: string, req: Request, now: int, tag: string) returns (s': State)
    requires Inv(s) && c in s.electors && s.electors[c].pc == Calling(req, now, None) && req in s.sent
    requires tag != "" && tag !in s.bodies && req.owner == c && !req.Delete?
    ensures s' == Exec(s, Serving(c, req, tag)) && Inv(s')
    ensures var (stored, reply) := Serve(s.stored, req, tag);
            var l := s.electors[c];
      && s'.stored == stored && s'.bodies.Keys <= s.bodies.Keys + {tag}
      && (!reply.Written? ==> s'.bodies == s.bodies)
      && c in s'.electors
      && s' == OnAnswer(s'.(electors := s.electors[c := l.(pc := Calling(req, now, Some(reply)))], sent := s.sent), c,
                        l.(pc := Calling(req, now, Some(reply))), false)
  {
    Answered(s, c, req, now, tag);
    var s1 := Exec(s, [Deliver(req, tag, true)]);
    NextInv(s1, Answer(c, false));
    ExecOne(s1, Answer(c, false));
    ExecConcat(s, [Deliver(req, tag, true)], [Answer(c, false)]);
    assert [Deliver(req, tag, true)] + [Answer(c, false)] == Serving(c, req, tag);
    s' := Next(s1, Answer(c, false));
  }

  lemma Settled(s: State, c: string)
    requires Inv(s) && c in s.electors && s.electors[c].pc.Acked? && s.electors[c].phase.Running?
    ensures var s' := Exec(s, Settle(c));
      && Inv(s') && s'.stored == s.stored && s'.bodies == s.bodies && Ready(s', c)
      && s'.electors[c].clock == s.electors[c].clock && s'.electors[c].lease == s.electors[c].lease
      && s'.electors[c].leader
  {
    NextInv(s, Update(c));
    var s1 := Next(s, Update(c));
    NextInv(s1, Update(c));
    ExecOne(s1, Update(c));
    assert Settle(c)[1..] == [Update(c)];
  }

  lemma SteppedDown(s: State, c: string)
    requires Inv(s) && c in s.electors && s.electors[c].pc == Storing(false) && s.electors[c].phase.Running?
    ensures var s' := Exec(s, [Update(c)]);
      && Inv(s') && s'.stored == s.stored && s'.bodies == s.bodies && Ready(s', c)
      && s'.electors[c].clock == s.electors[c].clock && s'.electors[c].lease == s.electors[c].lease
      && !s'.electors[c].leader
  {
    NextInv(s, Update(c));
    ExecOne(s, Update(c));
  }

  /** The elector `c` of `s1` is where it was in `s`, but for its program counter. */
  predicate Along(s: State, s1: State, c: string, pc: Pc) {
    && c in s.electors && c in s1.electors
    && s1.electors[c].phase == s.electors[c].phase && s1.electors[c].clock == s.electors[c].clock
    && s1.electors[c].lease == s.electors[c].lease && s1.electors[c].pc == pc
    && (pc.Calling? ==> pc.req in s1.sent)
  }

  lemma Claimed(s: State, c: string, tag: string) returns (s1: State)
    requires Inv(s) && Ready(s, c) && tag != "" && tag !in s.bodies
    ensures s1 == Exec(s, Claim(c, s.electors[c], tag)) && Inv(s1) && s1.bodies.Keys <= s.bodies.Keys + {tag}
    ensures var l := s.electors[c];
      if s.stored.None? then
        Along(s, s1, c, Acked(tag, l.clock)) && Abs(s1) == Held(c, l.clock + 3 * l.lease)
      else
        Along(s, s1, c, Calling(Get(c), l.clock, None)) && s1.stored == s.stored && s1.bodies == s.bodies
  {
    var l := s.electors[c];
    var create := Put(c, l.clock, l.lease, IfNoneMatch);
    var s0 := Began(s, c);
    s1 := CreateServed(s0, c, create, l.clock, tag);
    ExecConcat(s, [BeginTick(c)], Serving(c, create, tag));
  }

  lemma CreateServed(s: State, c: string, req: Request, now: int, tag: string) returns (s1: State)
    requires Inv(s) && c in s.electors && req == Put(c, now, s.electors[c].lease, IfNoneMatch)
    requires s.electors[c].pc == Calling(req, now, None) && req in s.sent && tag != "" && tag !in s.bodies
    ensures s1 == Exec(s, Serving(c, req, tag)) && Inv(s1) && s1.bodies.Keys <= s.bodies.Keys + {tag}
    ensures if s.stored.None? then
        Along(s, s1, c, Acked(tag, now)) && Abs(s1) == Held(c, now + 3 * s.electors[c].lease)
      else
        Along(s, s1, c, Calling(Get(c), now, None)) && s1.stored == s.stored && s1.bodies == s.bodies
  {
    s1 := RoundTrip(s, c, req, now, tag);
  }

  lemma Began(s: State, c: string) returns (s0: State)
    requires Inv(s) && Ready(s, c)
    ensures s0 == Exec(s, [BeginTick(c)]) && Inv(s0) && s0.stored == s.stored && s0.bodies == s.bodies
    ensures var l := s.electors[c];
            var create := Put(c, l.clock, l.lease, IfNoneMatch);
      c in s0.electors && s0.electors[c] == l.(lastNow := Some(l.clock), pc := Calling(create, l.clock, None)) &&
      create in s0.sent
  {
    NextInv(s, BeginTick(c));
    ExecOne(s, BeginTick(c));
    s0 := Next(s, BeginTick(c));
  }

  lemma Inspected(s: State, c: string, now: int, tag: string) returns (s1: State)
    requires Inv(s) && c in s.electors && s.electors[c].pc == Calling(Get(c), now, None)
    requires s.stored.Some? && tag != "" && tag !in s.bodies
    ensures s1 == Exec(s, Serving(c, Get(c), tag)) && Inv(s1) && s1.bodies == s.bodies && s1.stored == s.stored
    ensures Along(s, s1, c, if Takeable(Abs(s), c, now)
                            then Calling(Put(c, now, s.electors[c].lease, IfMatch(s.stored.value.etag)), now, None)
                            else Storing(false))
  {
    assert LocalOk(s, c, s.electors[c]);
    s1 := RoundTrip(s, c, Get(c), now, tag);
  }

  lemma Replaced(s: State, c: string, now: int, tag: string) returns (s1: State)
    requires Inv(s) && c in s.electors && s.stored.Some? && tag != "" && tag !in s.bodies
    requires s.electors[c].pc == Calling(Put(c, now, s.electors[c].lease, IfMatch(s.stored.value.etag)), now, None)
    ensures s1 == Exec(s, Serving(c, s.electors[c].pc.req, tag)) && Inv(s1)
    ensures Along(s, s1, c, Acked(tag, now)) && s1.bodies.Keys <= s.bodies.Keys + {tag}
    ensures Abs(s1) == Held(c, now + 3 * s.electors[c].lease)
  {
    assert LocalOk(s, c, s.electors[c]);
    s1 := RoundTrip(s, c, s.electors[c].pc.req, now, tag);
  }

  /** After the tick `c` is leader exactly when it could take the register, which then
      runs 3 * Lease from the tick's start; otherwise nothing moved. */
  predicate TickDone(s: State, s': State, c: string, tag: string)
    requires c in s.electors
  {
    var l := s.electors[c];
    && Inv(s') && Ready(s', c) && s'.electors[c].clock == l.clock && s'.electors[c].lease == l.lease
    && s'.bodies.Keys <= s.bodies.Keys + {tag}
    && s'.electors[c].leader == Takeable(Abs(s), c, l.clock)
    && Abs(s') == (if Takeable(Abs(s), c, l.clock) then Held(c, l.clock + 3 * l.lease) else Abs(s))
  }

  lemma FreeOutcome(s: State, c: string, tag: string)
    requires Inv(s) && Ready(s, c) && tag != "" && tag !in s.bodies && s.stored.None?
    ensures TickDone(s, Exec(s, FaultFreeTick(s, c, tag)), c, tag)
  {
    var s1 := Claimed(s, c, tag);
    Settled(s1, c);
    ExecConcat(s, Claim(c, s.electors[c], tag), Settle(c));
  }

  lemma TakenOutcome(s: State, c: string, tag: string)
    requires Inv(s) && Ready(s, c) && tag != "" && tag !in s.bodies && s.stored.Some?
    requires Takeable(Abs(s), c, s.electors[c].clock)
    ensures TickDone(s, Exec(s, FaultFreeTick(s, c, tag)), c, tag)
  {
    var l := s.electors[c];
    var s1 := Claimed(s, c, tag);
    var s2 := Inspected(s1, c, l.clock, tag);
    var s3 := Replaced(s2, c, l.clock, tag);
    Settled(s3, c);
    var replacing := Replacing(c, l, s.stored.value.etag, tag);
    ExecConcat(s2, replacing, Settle(c));
    ExecConcat(s1, Serving(c, Get(c), tag), replacing + Settle(c));
    ExecConcat(s, Claim(c, l, tag), Serving(c, Get(c), tag) + (replacing + Settle(c)));
  }

  lemma RefusedOutcome(s: State, c: string, tag: string)
    requires Inv(s) && Ready(s, c) && tag != "" && tag !in s.bodies && s.stored.Some?
    requires !Takeable(Abs(s), c, s.electors[c].clock)
    ensures TickDone(s, Exec(s, FaultFreeTick(s, c, tag)), c, tag)
  {
    var l := s.electors[c];
    var s1 := Claimed(s, c, tag);
    var s2 := Inspected(s1, c, l.clock, tag);
    SteppedDown(s2, c);
    ExecConcat(s1, Serving(c, Get(c), tag), [Update(c)]);
    ExecConcat(s, Claim(c, l, tag), Serving(c, Get(c), tag) + [Update(c)]);
  }

  lemma FaultFreeOutcome(s: State, c: string, tag: string)
    requires Inv(s) && Ready(s, c) && tag != "" && tag !in s.bodies
    ensures TickDone(s, Exec(s, FaultFreeTick(s, c, tag)), c, tag)
  {
    if s.stored.None? { FreeOutcome(s, c, tag); }
    else if Takeable(Abs(s), c, s.electors[c].clock) { TakenOutcome(s, c, tag); }
    else { RefusedOutcome(s, c, tag); }
  }

  // ---------------------------------------------------------------- takeover

  /** One tick of a campaign: when it starts on the challenger's clock, how the other
      clocks move before it, and the ETag of the version it may write. */
  datatype Round = Round(at: int, others: seq<Action>, tag: string)

  predicate OnlyClocks(c: string, env: seq<Action>) {
    forall i :: 0 <= i < |env| ==> env[i].Advance? && env[i].who != c
  }

  /** The steps of one round: the clocks move, then the challenger ticks. */
  function Before(s: State, c: string, r: Round): State {
    Exec(Next(s, Advance(c, r.at)), r.others)
  }

  function After(s: State, c: string, r: Round): State {
    var s1 := Before(s, c, r);
    if Ready(s1, c) then Exec(s1, FaultFreeTick(s1, c, r.tag)) else s1
  }

  lemma {:induction false} ClocksFrame(s: State, c: string, env: seq<Action>)
    requires Inv(s) && c in s.electors && OnlyClocks(c, env)
    ensures var s' := Exec(s, env);
      Inv(s') && c in s'.electors && s'.electors[c] == s.electors[c] && s'.stored == s.stored && s'.bodies == s.bodies
    decreases |env|
  {
    if env != [] {
      NextInv(s, env[0]);
      ClocksFrame(Next(s, env[0]), c, env[1..]);
    }
  }

  /** The state after the first `k` rounds. */
  function Campaign(s: State, c: string, rounds: seq<Round>, k: nat): State
    requires k <= |rounds|
    decreases k
  {
    if k == 0 then s else After(Campaign(s, c, rounds, k - 1), c, rounds[k - 1])
  }

  function Starts(rounds: seq<Round>): seq<int> {
    seq(|rounds|, i requires 0 <= i < |rounds| => rounds[i].at)
  }

  /** The ETags of the rounds from the `k`-th on have not been issued. */
  predicate Unissued(s: State, rounds: seq<Round>, k: nat) {
    forall i :: k <= i < |rounds| ==> rounds[i].tag != "" && rounds[i].tag !in s.bodies
  }

  /** The rounds start in order, at most one interval apart, with new ETags. */
  predicate Regular(s: State, c: string, rounds: seq<Round>)
    requires c in s.electors && s.electors[c].lease > 0
  {
    && Unissued(s, rounds, 0)
    && (forall i :: 0 <= i < |rounds| ==> OnlyClocks(c, rounds[i].others))
    && (forall i, j :: 0 <= i < j < |rounds| ==> rounds[i].tag != rounds[j].tag)
    && (rounds != [] ==> s.electors[c].clock <= rounds[0].at)
    && Paced(Starts(rounds), Interval(s.electors[c].lease))
  }

  /** What a round makes of `s`: the challenger leads exactly when it could take the
      register, which then runs 3 * Lease from the round's start. */
  predicate RoundDone(s: State, s': State, c: string, r: Round)
    requires c in s.electors
  {
    var lease := s.electors[c].lease;
    && Inv(s') && Ready(s', c) && s'.electors[c].clock == r.at && s'.electors[c].lease == lease
    && s'.bodies.Keys <= s.bodies.Keys + {r.tag}
    && s'.electors[c].leader == Takeable(Abs(s), c, r.at)
    && Abs(s') == (if Takeable(Abs(s), c, r.at) then Held(c, r.at + 3 * lease) else Abs(s))
  }

  /** One round: the challenger reads its clock at `r.at` and ticks. */
  lemma RoundOutcome(s: State, c: string, r: Round)
    requires Inv(s) && Ready(s, c) && OnlyClocks(c, r.others) && r.tag != "" && r.tag !in s.bodies
    requires s.electors[c].clock <= r.at
    ensures RoundDone(s, After(s, c, r), c, r)
  {
    NextInv(s, Advance(c, r.at));
    var s1 := Next(s, Advance(c, r.at));
    ClocksFrame(s1, c, r.others);
    FaultFreeOutcome(Before(s, c, r), c, r.tag);
  }

  predicate FlagAfter(s: State, c: string, rounds: seq<Round>, k: nat, flag: bool)
    requires k <= |rounds|
  {
    var s' := Campaign(s, c, rounds, k);
    c in s'.electors && s'.electors[c].leader == flag
  }

  lemma StillUnissued(s: State, s': State, rounds: seq<Round>, k: nat)
    requires k < |rounds| && Unissued(s, rounds, k) && s'.bodies.Keys <= s.bodies.Keys + {rounds[k].tag}
    requires forall i, j :: 0 <= i < j < |rounds| ==> rounds[i].tag != rounds[j].tag
    ensures Unissued(s', rounds, k + 1)
  {
  }

  /** After `k` rounds, nothing has changed but the challenger's clock, and if there
      was a round it is not leader. */
  predicate Waited(s: State, s': State, c: string, rounds: seq<Round>, k: nat)
    requires c in s.electors && k < |rounds|
  {
    && Inv(s') && Ready(s', c) && Abs(s') == Abs(s) && s'.electors[c].lease == s.electors[c].lease
    && Unissued(s', rounds, k)
    && s'.electors[c].clock <= rounds[k].at && (k > 0 ==> !s'.electors[c].leader)
  }

  lemma WaitOnce(s: State, s1: State, c: string, rounds: seq<Round>, k: nat)
    requires c in s.electors && s.electors[c].lease > 0 && Regular(s, c, rounds) && k + 1 < |rounds|
    requires Waited(s, s1, c, rounds, k) && !Takeable(Abs(s), c, rounds[k].at)
    ensures Waited(s, After(s1, c, rounds[k]), c, rounds, k + 1)
  {
    RoundOutcome(s1, c, rounds[k]);
    WaitedOnce(s, s1, After(s1, c, rounds[k]), c, rounds, k);
  }

  lemma WaitedOnce(s: State, s1: State, s2: State, c: string, rounds: seq<Round>, k: nat)
    requires c in s.electors && s.electors[c].lease > 0 && Regular(s, c, rounds) && k + 1 < |rounds|
    requires Waited(s, s1, c, rounds, k) && !Takeable(Abs(s), c, rounds[k].at) && RoundDone(s1, s2, c, rounds[k])
    ensures Waited(s, s2, c, rounds, k + 1)
  {
    StillUnissued(s1, s2, rounds, k);
    assert Starts(rounds)[k] <= Starts(rounds)[k + 1];
  }

  /** Rounds that start too early change nothing but the challenger's clock. */
  lemma {:induction false} Waiting(s: State, c: string, rounds: seq<Round>, k: nat, holder: string, until: int)
    requires Inv(s) && Ready(s, c) && s.electors[c].lease > 0 && Regular(s, c, rounds) && k < |rounds|
    requires Abs(s) == Held(holder, until) && holder != c
    requires forall i :: 0 <= i < k ==> rounds[i].at < until
    ensures Waited(s, Campaign(s, c, rounds, k), c, rounds, k)
    decreases k
  {
    if k > 0 {
      Waiting(s, c, rounds, k - 1, holder, until);
      WaitOnce(s, Campaign(s, c, rounds, k - 1), c, rounds, k - 1);
    }
  }

  /** Bounded takeover: against a silent holder whose lease ends at `until`, the
      challenger is not leader after any round that starts before `until`, and is
      leader after the first that does not, which starts before `until` plus one
      interval. */
  lemma BoundedTakeover(s: State, c: string, rounds: seq<Round>, holder: string, until: int) returns (k: nat)
    requires Inv(s) && Ready(s, c) && s.electors[c].lease > 0 && Regular(s, c, rounds) && rounds != []
    requires Abs(s) == Held(holder, until) && holder != c
    requires rounds[0].at < until + Interval(s.electors[c].lease) && until <= rounds[|rounds| - 1].at
    ensures k < |rounds| && until <= rounds[k].at < until + Interval(s.electors[c].lease)
    ensures forall j :: 0 < j <= k ==> FlagAfter(s, c, rounds, j, false)
    ensures FlagAfter(s, c, rounds, k + 1, true)
    ensures Abs(Campaign(s, c, rounds, k + 1)) == Held(c, rounds[k].at + 3 * s.electors[c].lease)
  {
    k := FirstStart(Starts(rounds), Interval(s.electors[c].lease), until);
    forall i | 0 <= i < k ensures rounds[i].at < until {
      assert Starts(rounds)[i] == rounds[i].at;
    }
    forall j | 0 < j <= k ensures FlagAfter(s, c, rounds, j, false) {
      Waiting(s, c, rounds, j, holder, until);
    }
    Waiting(s, c, rounds, k, holder, until);
    TakesOver(s, Campaign(s, c, rounds, k), c, rounds, k);
  }

  /** The first round that is late enough. */
  lemma TakesOver(s: State, s1: State, c: string, rounds: seq<Round>, k: nat)
    requires c in s.electors && s.electors[c].lease > 0 && Regular(s, c, rounds) && k < |rounds|
    requires Waited(s, s1, c, rounds, k) && Takeable(Abs(s), c, rounds[k].at)
    ensures var s2 := After(s1, c, rounds[k]);
      c in s2.electors && s2.electors[c].leader && Abs(s2) == Held(c, rounds[k].at + 3 * s.electors[c].lease)
  {
    RoundOutcome(s1, c, rounds[k]);
  }
}
