/** The guarantees of s3lock over whole runs: exclusion on leases, refinement of
    the atomic lease register, stability of a punctual holder, and resignation. */
module S3LockTheorems {
  import opened LeaseRegister
  import opened S3LockProtocol
  import opened S3LockSafety

  // ---------------------------------------------------------------- refinement

  /** The operation on the lease register a step amounts to, if any. */
  function OpOf(s: State, a: Action): seq<Op> {
    if a.Deliver? && a.req in s.sent && a.req.Put? && Matches(s.stored, a.req.cond) &&
       TagAllowed(s.bodies, a.tag, BodyOf(a.req)) then
      [Acquire(a.req.owner, a.req.now, LeaseEnd(a.req.now, a.req.lease))]
    else if a.Deliver? && a.req in s.sent && a.req.Delete? && s.stored.Some? &&
            s.stored.value.etag == a.req.etag then
      [Release(a.req.owner)]
    else []
  }

  function OpsOf(s: State, run: seq<Action>): seq<Op>
    decreases |run|
  {
    if run == [] then [] else OpOf(s, run[0]) + OpsOf(Next(s, run[0]), run[1..])
  }

  /** Every commit is one guarded atomic operation on the register: a put commits
      only where the object is absent, its writer's own, or expired at the clock
      reading of the tick that issued it, however late it takes effect; a delete
      only removes what its elector wrote. */
  lemma StepRefines(s: State, a: Action)
    requires Inv(s)
    ensures LegalRun(Abs(s), OpOf(s, a)) && Run(Abs(s), OpOf(s, a)) == Abs(Next(s, a))
  {
    if a.Deliver? && a.req in s.sent {
      assert RequestOk(s, a.req);
      assert LocalOk(s, a.req.owner, s.electors[a.req.owner]);
      if OpOf(s, a) != [] {
        assert OpOf(s, a)[1..] == [];
      }
    }
  }

  lemma {:induction false} RunRefines(s: State, run: seq<Action>)
    requires Inv(s)
    ensures LegalRun(Abs(s), OpsOf(s, run)) && LeaseRegister.Run(Abs(s), OpsOf(s, run)) == Abs(Exec(s, run))
    decreases |run|
  {
    if run != [] {
      StepRefines(s, run[0]);
      NextInv(s, run[0]);
      RunRefines(Next(s, run[0]), run[1..]);
      RunConcat(Abs(s), OpOf(s, run[0]), OpsOf(Next(s, run[0]), run[1..]));
      assert OpsOf(s, run) == OpOf(s, run[0]) + OpsOf(Next(s, run[0]), run[1..]);
    }
  }

  /** Between creation and deletion of the object its lease never moves back, and
      it moves forward strictly when the owner changes: whatever the clocks do. */
  lemma LeaseOnlyGrows(s: State, run: seq<Action>)
    requires Inv(s) && s.stored.Some?
    requires forall i :: 0 <= i < |OpsOf(s, run)| ==> OpsOf(s, run)[i].Acquire?
    ensures var s' := Exec(s, run);
            s'.stored.Some? &&
            var d, d' := ParseDoc(s.stored.value.body), ParseDoc(s'.stored.value.body);
            d.leaseUntil <= d'.leaseUntil && (d.owner != d'.owner ==> d.leaseUntil < d'.leaseUntil)
  {
    RunRefines(s, run);
    DeadlineOnlyGrows(Abs(s), OpsOf(s, run));
  }

  // ---------------------------------------------------------------- exclusion

  /** All clocks are within `d` of each other. Clocks advance one at a
      time, so along a run on which two clocks move `d` is positive. */
  ghost predicate Synced(s: State, d: nat) {
    forall a, b :: a in s.electors && b in s.electors ==> s.electors[a].clock <= s.electors[b].clock + d
  }

  ghost predicate SyncedRun(s: State, run: seq<Action>, d: nat)
    decreases |run|
  {
    Synced(s, d) && (run != [] ==> SyncedRun(Next(s, run[0]), run[1..], d))
  }

  predicate OutsideResign(l: Local) {
    l.phase.NotStarted? || l.phase.Running? || l.phase.Cancelled?
  }

  /** The leases an elector knows to be committed, acknowledged or about to be. */
  predicate Claims(l: Local, until: int) {
    || (l.acked.Some? && l.acked.value.leaseUntil == until)
    || (l.pc.Acked? && LeaseEnd(l.pc.now, l.lease) == until)
    || (l.pc.Calling? && l.pc.reply.Some? && l.pc.reply.value.Written? && LeaseEnd(l.pc.now, l.lease) == until)
  }

  predicate StoredFor(s: State, who: string, until: int) {
    s.stored.Some? && ParseDoc(s.stored.value.body).owner == who &&
    until <= ParseDoc(s.stored.value.body).leaseUntil
  }

  predicate ClaimOk(s: State, d: nat, who: string, l: Local, until: int) {
    until <= l.clock + d || StoredFor(s, who, until)
  }

  /** Every claimed lease has run out on its owner's clock, or is still stored. */
  ghost predicate ClaimsOk(s: State, d: nat) {
    forall o, u :: o in s.electors && OutsideResign(s.electors[o]) && Claims(s.electors[o], u) ==>
      ClaimOk(s, d, o, s.electors[o], u)
  }

  lemma CommitKeepsClaim(s: State, a: Action, d: nat, who: string, until: int)
    requires Inv(s) && Synced(s, d) && who in s.electors && OutsideResign(s.electors[who])
    requires ClaimOk(s, d, who, s.electors[who], until) && a.Deliver?
    ensures ClaimOk(Next(s, a), d, who, Next(s, a).electors[who], until)
  {
    StepRefines(s, a);
    if a.req in s.sent {
      assert RequestOk(s, a.req);
      assert LocalOk(s, a.req.owner, s.electors[a.req.owner]);
    }
  }

  lemma DeliverClaims(s: State, a: Action, d: nat)
    requires Inv(s) && Synced(s, d) && ClaimsOk(s, d) && a.Deliver?
    ensures ClaimsOk(Next(s, a), d)
  {
    var s' := Next(s, a);
    forall o, u | o in s'.electors && OutsideResign(s'.electors[o]) && Claims(s'.electors[o], u)
      ensures ClaimOk(s', d, o, s'.electors[o], u)
    {
      assert LocalOk(s, o, s.electors[o]);
      if Claims(s.electors[o], u) { CommitKeepsClaim(s, a, d, o, u); }
    }
  }

  lemma AnswerFrame(s: State, who: string, lost: bool)
    requires who in s.electors && LocalOk(s, who, s.electors[who]) && s.electors[who].pc.Calling?
    ensures var l := s.electors[who];
            var s' := OnAnswer(s, who, l, lost);
      && s'.stored == s.stored && s'.bodies == s.bodies && who in s'.electors
      && s'.electors == s.electors[who := l.(pc := s'.electors[who].pc)]
      && (forall u :: Claims(s'.electors[who], u) ==> Claims(l, u))
  {
  }

  /** A step away from the backend leaves the object alone and claims nothing new. */
  lemma LocalStepFrame(s: State, a: Action, o: string)
    requires Inv(s) && !a.Deliver? && o in s.electors
    ensures var s' := Next(s, a);
      && s'.stored == s.stored && s'.bodies == s.bodies && o in s'.electors
      && s.electors[o].clock <= s'.electors[o].clock
      && (OutsideResign(s'.electors[o]) ==> OutsideResign(s.electors[o]))
      && (forall u :: Claims(s'.electors[o], u) ==> Claims(s.electors[o], u))
  {
    var s' := Next(s, a);
    assert LocalOk(s, o, s.electors[o]);
    if a.Answer? {
      if a.who in s.electors && s.electors[a.who].pc.Calling? {
        assert LocalOk(s, a.who, s.electors[a.who]);
        AnswerFrame(s, a.who, a.lost);
      }
    }
  }

  lemma LocalStepClaims(s: State, a: Action, d: nat)
    requires Inv(s) && ClaimsOk(s, d) && !a.Deliver?
    ensures ClaimsOk(Next(s, a), d)
  {
    var s' := Next(s, a);
    forall o, u | o in s'.electors && OutsideResign(s'.electors[o]) && Claims(s'.electors[o], u)
      ensures ClaimOk(s', d, o, s'.electors[o], u)
    {
      LocalStepFrame(s, a, o);
      assert ClaimOk(s, d, o, s.electors[o], u);
    }
  }

  lemma {:induction false} ExecClaims(s: State, run: seq<Action>, d: nat)
    requires Inv(s) && SyncedRun(s, run, d) && ClaimsOk(s, d)
    ensures Inv(Exec(s, run)) && ClaimsOk(Exec(s, run), d)
    decreases |run|
  {
    if run != [] {
      NextInv(s, run[0]);
      if run[0].Deliver? { DeliverClaims(s, run[0], d); } else { LocalStepClaims(s, run[0], d); }
      ExecClaims(Next(s, run[0]), run[1..], d);
    }
  }

  /** `who` says it is leader, is outside Resign, and its last acknowledged lease
      is still ahead of its own clock by more than the skew. */
  predicate Leads(s: State, who: string, d: nat) {
    who in s.electors &&
    var l := s.electors[who];
    l.leader && OutsideResign(l) && l.acked.Some? && l.clock + d < l.acked.value.leaseUntil
  }

  /** Exclusion: in every state of every run, at most one elector leads, and the
      stored document is then its own with a lease at least as late as the one it
      was acknowledged. Replies may be lost and writes may take effect late or
      more than once. */
  lemma Exclusion(s: State, run: seq<Action>, d: nat, a: string, b: string)
    requires Init(s) && SyncedRun(s, run, d)
    ensures var s' := Exec(s, run);
      && (Leads(s', a, d) ==> StoredFor(s', a, s'.electors[a].acked.value.leaseUntil))
      && (Leads(s', a, d) && Leads(s', b, d) ==> a == b)
  {
    InitInv(s);
    ExecClaims(s, run, d);
    var s' := Exec(s, run);
    if Leads(s', a, d) {
      assert ClaimOk(s', d, a, s'.electors[a], s'.electors[a].acked.value.leaseUntil);
    }
    if Leads(s', b, d) {
      assert ClaimOk(s', d, b, s'.electors[b], s'.electors[b].acked.value.leaseUntil);
    }
  }

  // ---------------------------------------------------------------- holder stability

  predicate CommitsBy(ops: seq<Op>, who: string) {
    forall i :: 0 <= i < |ops| ==> ops[i].Acquire? && ops[i].owner == who
  }

  /** `who`, whose last committed lease ends at `until`, stays outside Resign, and
      each of its commits, like the end of the run, comes while its clock plus the
      skew is still before the lease it has by then. */
  predicate Punctual(s: State, run: seq<Action>, who: string, until: int, d: nat)
    decreases |run|
  {
    && who in s.electors && OutsideResign(s.electors[who])
    && if run == [] then s.electors[who].clock + d < until
       else if OpOf(s, run[0]) != [] && OpOf(s, run[0])[0].Acquire? && OpOf(s, run[0])[0].owner == who then
         s.electors[who].clock + d < until &&
         Punctual(Next(s, run[0]), run[1..], who, OpOf(s, run[0])[0].until, d)
       else Punctual(Next(s, run[0]), run[1..], who, until, d)
  }

  lemma ClockOnlyAdvances(s: State, a: Action, o: string)
    requires Inv(s) && o in s.electors
    ensures o in Next(s, a).electors && s.electors[o].clock <= Next(s, a).electors[o].clock
  {
    if !a.Deliver? { LocalStepFrame(s, a, o); }
  }

  lemma {:induction false} PunctualNow(s: State, run: seq<Action>, who: string, until: int, d: nat)
    requires Inv(s) && Punctual(s, run, who, until, d)
    ensures s.electors[who].clock + d < until
    decreases |run|
  {
    if run != [] {
      var op := OpOf(s, run[0]);
      if op == [] || !op[0].Acquire? || op[0].owner != who {
        NextInv(s, run[0]);
        ClockOnlyAdvances(s, run[0], who);
        PunctualNow(Next(s, run[0]), run[1..], who, until, d);
      }
    }
  }

  /** Against a fresh lease nobody but its owner commits. */
  lemma OnlyOwnerCommits(s: State, a: Action, d: nat, who: string, until: int)
    requires Inv(s) && Synced(s, d) && who in s.electors && OutsideResign(s.electors[who])
    requires Abs(s) == Held(who, until) && s.electors[who].clock + d < until
    ensures CommitsBy(OpOf(s, a), who)
  {
    StepRefines(s, a);
    if a.Deliver? && a.req in s.sent {
      assert RequestOk(s, a.req);
      assert LocalOk(s, a.req.owner, s.electors[a.req.owner]);
    }
  }

  /** The acknowledgement of a commit is on its way to the flag. */
  predicate Pending(l: Local) {
    || l.pc.Acked? || l.pc == Storing(true)
    || (l.pc.Calling? && l.pc.reply.Some? && l.pc.reply.value.Written?)
  }

  /** A step of an elector that raises its flag settles an acknowledgement that was
      already on its way. */
  predicate OnlySettles(l: Local, l': Local) {
    (l'.leader ==> l.leader || Pending(l)) && (Pending(l') ==> Pending(l))
  }

  /** Without a commit of its own an elector gets no new acknowledgement, and without
      one its flag does not go up. */
  lemma NothingNewPending(s: State, a: Action, p: string)
    requires Inv(s) && p in s.electors
    requires forall i :: 0 <= i < |OpOf(s, a)| ==> OpOf(s, a)[i].Acquire? && OpOf(s, a)[i].owner != p
    ensures p in Next(s, a).electors && OnlySettles(s.electors[p], Next(s, a).electors[p])
  {
    assert LocalOk(s, p, s.electors[p]);
    if a.Deliver? {
      assert OpOf(s, a) != [] ==> OpOf(s, a)[0].owner != p;
      if a.req in s.sent { DeliverSettles(s, a, p); }
    } else if a.Answer? && a.who == p && s.electors[p].pc.Calling? {
      AnswerSettles(s, p, a.lost);
    } else {
      LocalStepSettles(s, a, p);
    }
  }

  lemma DeliverSettles(s: State, a: Action, p: string)
    requires p in s.electors && a.Deliver? && a.req in s.sent
    requires OpOf(s, a) != [] ==> OpOf(s, a)[0].owner != p
    ensures var s' := DeliverTo(s, a.req, a.tag, a.report);
            p in s'.electors && OnlySettles(s.electors[p], s'.electors[p])
  {
  }

  lemma LocalStepSettles(s: State, a: Action, p: string)
    requires p in s.electors && LocalOk(s, p, s.electors[p]) && !a.Deliver?
    requires !(a.Answer? && a.who == p && s.electors[p].pc.Calling?)
    ensures p in Next(s, a).electors && OnlySettles(s.electors[p], Next(s, a).electors[p])
  {
  }

  lemma AnswerSettles(s: State, p: string, lost: bool)
    requires p in s.electors && LocalOk(s, p, s.electors[p]) && s.electors[p].pc.Calling?
    ensures var s' := OnAnswer(s, p, s.electors[p], lost);
            p in s'.electors && OnlySettles(s.electors[p], s'.electors[p])
  {
  }

  /** Along the run `p`'s flag goes up only for an acknowledgement that was on its way
      before the run began. */
  ghost predicate NothingNew(s: State, run: seq<Action>, p: string)
    decreases |run|
  {
    p in s.electors &&
    (run != [] ==>
       p in Next(s, run[0]).electors && OnlySettles(s.electors[p], Next(s, run[0]).electors[p]) &&
       NothingNew(Next(s, run[0]), run[1..], p))
  }

  /** Along the run `p`'s flag never goes up; it may come down. */
  ghost predicate NeverRaised(s: State, run: seq<Action>, p: string)
    decreases |run|
  {
    p in s.electors &&
    (run != [] ==>
       p in Next(s, run[0]).electors &&
       (Next(s, run[0]).electors[p].leader ==> s.electors[p].leader) &&
       NeverRaised(Next(s, run[0]), run[1..], p))
  }

  ghost predicate NeverLeader(s: State, run: seq<Action>, p: string)
    decreases |run|
  {
    p in s.electors && !s.electors[p].leader && (run != [] ==> NeverLeader(Next(s, run[0]), run[1..], p))
  }

  lemma {:induction false} NothingNewRaisesNothing(s: State, run: seq<Action>, p: string)
    requires NothingNew(s, run, p) && !Pending(s.electors[p])
    ensures NeverRaised(s, run, p)
    ensures !s.electors[p].leader ==> NeverLeader(s, run, p)
    decreases |run|
  {
    if run != [] { NothingNewRaisesNothing(Next(s, run[0]), run[1..], p); }
  }

  /** Holder stability: as long as a holder is punctual, every commit of the run is
      its own, and the object stays its own and ahead of its clock. Another elector's
      flag goes up only to settle an acknowledgement from before the run; with none on
      its way it never goes up, and if it was down it stays down. */
  lemma {:induction false} HolderStability(s: State, run: seq<Action>, who: string, until: int, d: nat)
    requires Inv(s) && SyncedRun(s, run, d)
    requires Abs(s) == Held(who, until) && Punctual(s, run, who, until, d)
    ensures CommitsBy(OpsOf(s, run), who)
    ensures var s' := Exec(s, run); who in s'.electors && StoredFor(s', who, s'.electors[who].clock + d + 1)
    ensures forall p :: p in s.electors && p != who ==> NothingNew(s, run, p)
    ensures forall p :: p in s.electors && p != who && !Pending(s.electors[p]) ==> NeverRaised(s, run, p)
    ensures forall p :: p in s.electors && p != who && !Pending(s.electors[p]) && !s.electors[p].leader ==>
              NeverLeader(s, run, p)
    decreases |run|
  {
    PunctualNow(s, run, who, until, d);
    if run != [] {
      var s1 := Next(s, run[0]);
      OnlyOwnerCommits(s, run[0], d, who, until);
      NextInv(s, run[0]);
      StepRefines(s, run[0]);
      var op := OpOf(s, run[0]);
      assert op != [] ==> op[1..] == [];
      HolderStability(s1, run[1..], who, if op == [] then until else op[0].until, d);
      forall p | p in s.electors && p != who ensures NothingNew(s, run, p) {
        NothingNewPending(s, run[0], p);
      }
    }
    forall p | p in s.electors && p != who && !Pending(s.electors[p])
      ensures NeverRaised(s, run, p) && (!s.electors[p].leader ==> NeverLeader(s, run, p))
    {
      NothingNewRaisesNothing(s, run, p);
    }
  }

  // ---------------------------------------------------------------- resignation

  lemma ResignedStays(s: State, a: Action, o: string)
    requires Inv(s) && o in s.electors && s.electors[o].phase.Resigned?
    ensures o in Next(s, a).electors && Next(s, a).electors[o].phase.Resigned?
  {
    assert LocalOk(s, o, s.electors[o]);
  }

  /** After Resign of a started elector has returned, the flag stays down in every
      later state, whatever is called on it, Start included. */
  lemma {:induction false} ResignIsFinal(s: State, run: seq<Action>, o: string)
    requires Inv(s) && o in s.electors && s.electors[o].phase.Resigned?
    ensures NeverLeader(s, run, o)
    decreases |run|
  {
    assert LocalOk(s, o, s.electors[o]);
    if run != [] {
      NextInv(s, run[0]);
      ResignedStays(s, run[0], o);
      ResignIsFinal(Next(s, run[0]), run[1..], o);
    }
  }

  /** In every reachable state a set flag comes with the ETag of the elector's last
      acknowledged write, which named a document of its own. */
  lemma FlagHoldsLastETag(s: State, run: seq<Action>, o: string)
    requires Init(s) && o in s.electors
    ensures var s' := Exec(s, run);
      o in s'.electors &&
      var l := s'.electors[o];
      l.leader ==> l.heldETag != "" && l.acked.Some? && l.acked.value.etag == l.heldETag &&
                   WroteOwn(s', o, l.heldETag, l.acked.value.leaseUntil)
  {
    InitInv(s);
    ExecInv(s, run);
    SameElectors(s, run);
    assert LocalOk(Exec(s, run), o, Exec(s, run).electors[o]);
  }

  lemma {:induction false} SameElectors(s: State, run: seq<Action>)
    ensures Exec(s, run).electors.Keys == s.electors.Keys
    decreases |run|
  {
    if run != [] { SameElectors(Next(s, run[0]), run[1..]); }
  }
}
