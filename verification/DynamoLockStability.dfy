/** Stability of a punctual dynamolock holder. */
module DynamoLockStability {
  import opened Common
  import opened LeaseRegister
  import opened DynamoLockProtocol
  import opened DynamoLockTheorems

  predicate CommitsBy(ops: seq<Op>, who: string) {
    forall i :: 0 <= i < |ops| ==> ops[i].Acquire? && ops[i].owner == who
  }

  /** Nobody's clock, in whole seconds, can be past `until` yet. */
  predicate Fresh(l: Local, until: int, d: nat) {
    Unix(l.clock + d) <= until
  }

  /** `who`, whose last committed deadline is `until`, stays outside Resign, and each
      of its commits, like the end of the run, comes while the lease it has by then is
      still fresh. */
  predicate Punctual(s: State, run: seq<Action>, who: string, until: int, d: nat)
    decreases |run|
  {
    && who in s.electors && OutsideResign(s.electors[who])
    && if run == [] then Fresh(s.electors[who], until, d)
       else if OpOf(s, run[0]) != [] && OpOf(s, run[0])[0].Acquire? && OpOf(s, run[0])[0].owner == who then
         Fresh(s.electors[who], until, d) &&
         Punctual(Next(s, run[0]), run[1..], who, OpOf(s, run[0])[0].until, d)
       else Punctual(Next(s, run[0]), run[1..], who, until, d)
  }

  lemma ClockOnlyAdvances(s: State, a: Action, o: string)
    requires Inv(s) && o in s.electors
    ensures o in Next(s, a).electors && s.electors[o].clock <= Next(s, a).electors[o].clock
  {
    if !a.AdvanceTable? && !a.TimeToLive? && !a.Deliver? && !a.LateDelete? && a.who == o {
      LocalStepFrame(a, o, s.electors[o]);
    }
  }

  lemma {:induction false} PunctualNow(s: State, run: seq<Action>, who: string, until: int, d: nat)
    requires Inv(s) && Punctual(s, run, who, until, d)
    ensures Fresh(s.electors[who], until, d)
    decreases |run|
  {
    if run != [] {
      var op := OpOf(s, run[0]);
      if op == [] || !op[0].Acquire? || op[0].owner != who {
        NextInv(s, run[0]);
        ClockOnlyAdvances(s, run[0], who);
        PunctualNow(Next(s, run[0]), run[1..], who, until, d);
        UnixMonotone(s.electors[who].clock + d, Next(s, run[0]).electors[who].clock + d);
      }
    }
  }

  /** Against a fresh lease nobody but its owner commits, and the table deletes
      nothing. */
  lemma OnlyOwnerCommits(s: State, a: Action, d: nat, who: string, until: int)
    requires Inv(s) && Synced(s, d) && who in s.electors && OutsideResign(s.electors[who])
    requires Abs(s) == Held(who, until) && Fresh(s.electors[who], until, d)
    ensures CommitsBy(OpOf(s, a), who)
  {
    if a.TimeToLive? {
      UnixMonotone(s.clock, s.electors[who].clock + d);
    } else if a.Deliver? && a.who in s.electors && s.electors[a.who].pc.Calling? {
      var l := s.electors[a.who];
      assert LocalOk(a.who, l);
      if l.pc.req.PutItem? {
        UnixMonotone(l.pc.now, s.electors[who].clock + d);
      }
    }
  }

  /** The acknowledgement of a commit is on its way to the flag. */
  predicate Pending(l: Local) {
    || l.pc.Acked? || l.pc == Storing(true)
    || (l.pc.Calling? && l.pc.req.PutItem? && l.pc.reply == Some(Done))
  }

  /** A step of an elector that raises its flag settles an acknowledgement that was
      already on its way. */
  predicate OnlySettles(l: Local, l': Local) {
    (l'.leader ==> l.leader || Pending(l)) && (Pending(l') ==> Pending(l))
  }

  /** Without a commit of its own an elector gets no new acknowledgement, and without
      one its flag does not go up. */
  lemma NothingNewPending(s: State, a: Action, p: string)
    requires Inv(s) && p in s.electors
    requires forall i :: 0 <= i < |OpOf(s, a)| ==> OpOf(s, a)[i].Acquire? && OpOf(s, a)[i].owner != p
    ensures p in Next(s, a).electors && OnlySettles(s.electors[p], Next(s, a).electors[p])
  {
    assert LocalOk(p, s.electors[p]);
    if a.Deliver? {
      assert OpOf(s, a) != [] ==> OpOf(s, a)[0].owner != p;
    } else if !a.AdvanceTable? && !a.TimeToLive? && !a.LateDelete? && a.who == p {
      LocalStepSettles(a, p, s.electors[p]);
    }
  }

  lemma LocalStepSettles(a: Action, p: string, l: Local)
    requires LocalOk(p, l)
    ensures OnlySettles(l, LocalStep(a, p, l))
  {
  }

  /** Along the run `p`'s flag goes up only for an acknowledgement that was on its way
      before the run began. */
  ghost predicate NothingNew(s: State, run: seq<Action>, p: string)
    decreases |run|
  {
    p in s.electors &&
    (run != [] ==>
       p in Next(s, run[0]).electors && OnlySettles(s.electors[p], Next(s, run[0]).electors[p]) &&
       NothingNew(Next(s, run[0]), run[1..], p))
  }

  /** Along the run `p`'s flag never goes up; it may come down. */
  ghost predicate NeverRaised(s: State, run: seq<Action>, p: string)
    decreases |run|
  {
    p in s.electors &&
    (run != [] ==>
       p in Next(s, run[0]).electors &&
       (Next(s, run[0]).electors[p].leader ==> s.electors[p].leader) &&
       NeverRaised(Next(s, run[0]), run[1..], p))
  }

  lemma {:induction false} NothingNewRaisesNothing(s: State, run: seq<Action>, p: string)
    requires NothingNew(s, run, p) && !Pending(s.electors[p])
    ensures NeverRaised(s, run, p)
    ensures !s.electors[p].leader ==> NeverLeader(s, run, p)
    decreases |run|
  {
    if run != [] { NothingNewRaisesNothing(Next(s, run[0]), run[1..], p); }
  }

  /** Holder stability: as long as a holder is punctual, every commit of the run is
      its own, and the item stays its own and fresh. Another elector's flag goes up
      only to settle an acknowledgement from before the run; with none on its way it
      never goes up, and if it was down it stays down. */
  lemma {:induction false} HolderStability(s: State, run: seq<Action>, who: string, until: int, d: nat)
    requires Inv(s) && SyncedRun(s, run, d)
    requires Abs(s) == Held(who, until) && Punctual(s, run, who, until, d)
    ensures CommitsBy(OpsOf(s, run), who)
    ensures var s' := Exec(s, run);
      who in s'.electors && s'.stored.Some? && s'.stored.value.owner == who &&
      Fresh(s'.electors[who], s'.stored.value.leaseUntil, d)
    ensures forall p :: p in s.electors && p != who ==> NothingNew(s, run, p)
    ensures forall p :: p in s.electors && p != who && !Pending(s.electors[p]) ==> NeverRaised(s, run, p)
    ensures forall p :: p in s.electors && p != who && !Pending(s.electors[p]) && !s.electors[p].leader ==>
              NeverLeader(s, run, p)
    decreases |run|
  {
    PunctualNow(s, run, who, until, d);
    if run != [] {
      var s1 := Next(s, run[0]);
      OnlyOwnerCommits(s, run[0], d, who, until);
      NextInv(s, run[0]);
      StepRefines(s, run[0]);
      var op := OpOf(s, run[0]);
      assert op != [] ==> op[1..] == [];
      HolderStability(s1, run[1..], who, if op == [] then until else op[0].until, d);
      forall p | p in s.electors && p != who ensures NothingNew(s, run, p) {
        NothingNewPending(s, run[0], p);
      }
    }
    forall p | p in s.electors && p != who && !Pending(s.electors[p])
      ensures NeverRaised(s, run, p) && (!s.electors[p].leader ==> NeverLeader(s, run, p))
    {
      NothingNewRaisesNothing(s, run, p);
    }
  }
}
