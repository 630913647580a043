/** The guarantees of dynamolock over whole runs. */
module DynamoLockTheorems {
  import opened Common
  import opened Electors
  import opened LeaseRegister
  import opened DynamoLockProtocol

  // ---------------------------------------------------------------- seconds

  /** Truncating deadline and clock to whole seconds never shortens a lease, and
      lengthens it by less than a second: a steal at `t'` waits for the exact
      deadline, and one second after it nothing holds a steal back. */
  lemma TruncationIsConservative(t: int, lease: int, t': int)
    ensures Unix(Deadline(t, lease)) < Unix(t') ==> t + 3 * lease < t'
    ensures t + 3 * lease + 1_000_000_000 <= t' ==> Unix(Deadline(t, lease)) < Unix(t')
  {
    UnixBounds(Deadline(t, lease));
    UnixBounds(t');
  }

  lemma UnixBounds(t: int)
    ensures Unix(t) * SECOND <= t < Unix(t) * SECOND + SECOND
  {
  }

  lemma UnixMonotone(t: int, t': int)
    requires t <= t'
    ensures Unix(t) <= Unix(t')
  {
    UnixBounds(t);
    UnixBounds(t');
  }

  // ---------------------------------------------------------------- invariant

  predicate InTick(l: Local, now: int) {
    l.lastNow == Some(now) && (l.phase.Running? || l.phase.Cancelled?)
  }

  predicate ReplyOk(req: Request, reply: Reply) {
    match reply
    case Done => !req.GetItem?
    case ConditionFailed => !req.GetItem?
    case Got(_) => req.GetItem?
  }

  predicate PcOk(who: string, l: Local) {
    match l.pc
    case Idle => l.phase != Deleting
    case Calling(req, now, reply) =>
      && (req.DeleteItem? <==> l.phase.Deleting?)
      && (!req.DeleteItem? ==> InTick(l, now))
      && (req.PutItem? ==> req.item.owner == who && req.item.leaseUntil == Unix(Deadline(now, l.lease)) &&
                           req.item.version > 0 && req.nowUnix == Unix(now))
      && (reply.Some? ==> ReplyOk(req, reply.value))
    case Acked(version, now) => InTick(l, now) && version > 0
    case Storing(flag) => (l.phase.Running? || l.phase.Cancelled? || (l.phase.Deleting? && !flag)) &&
                          (flag ==> l.heldVersion > 0 && l.acked.Some?)
    case Clearing => l.phase.Deleting? && !l.leader
  }

  predicate LocalOk(who: string, l: Local) {
    && l.lease > 0 && l.heldVersion >= 0
    && (l.lastNow.Some? ==> l.lastNow.value <= l.clock)
    && PcOk(who, l)
    && (l.leader ==> l.heldVersion > 0 && l.acked.Some?)
    && (l.acked.Some? ==> l.lastNow.Some? && l.acked.value <= Deadline(l.lastNow.value, l.lease))
    && (l.phase.NotStarted? || l.phase.Resigned? ==> !l.leader && l.pc.Idle?)
    && (l.deleteSent ==> l.phase.Deleting? || l.phase.Resigned?)
  }

  /** An elector's own item ends no later than its latest tick allows. */
  predicate StoredOk(s: State) {
    s.stored.Some? && s.stored.value.owner in s.electors ==>
      var l := s.electors[s.stored.value.owner];
      l.lastNow.Some? && s.stored.value.leaseUntil <= Unix(Deadline(l.lastNow.value, l.lease))
  }

  predicate Inv(s: State) {
    && "" !in s.electors && StoredOk(s)
    && (forall o :: o in s.electors ==> LocalOk(o, s.electors[o]))
  }

  lemma InitInv(s: State)
    requires Init(s)
    ensures Inv(s)
  {
  }

  /** `l'` is in order and only extends the history of `l`. */
  predicate OkAfter(who: string, l: Local, l': Local) {
    && LocalOk(who, l') && l'.lease == l.lease && l.clock <= l'.clock
    && (l.lastNow.Some? ==> l'.lastNow.Some? && l.lastNow.value <= l'.lastNow.value)
  }

  lemma AnswerOk(who: string, l: Local, lost: bool)
    requires LocalOk(who, l) && l.pc.Calling?
    ensures OkAfter(who, l, OnAnswer(who, l, lost))
  {
  }

  lemma UpdateOk(who: string, l: Local)
    requires LocalOk(who, l)
    ensures OkAfter(who, l, OnUpdate(l))
  {
  }

  lemma BeginTickOk(who: string, l: Local)
    requires LocalOk(who, l)
    ensures OkAfter(who, l, LocalStep(BeginTick(who), who, l))
  {
  }

  lemma LocalStepOk(a: Action, who: string, l: Local)
    requires LocalOk(who, l)
    ensures OkAfter(who, l, LocalStep(a, who, l))
  {
    match a
    case Answer(_, lost) => if l.pc.Calling? { AnswerOk(who, l, lost); }
    case Update(_) => UpdateOk(who, l);
    case BeginTick(_) => BeginTickOk(who, l);
    case _ =>
  }

  /** Any step keeps every elector's own part, and only extends its history. */
  lemma NextLocalOk(s: State, a: Action, o: string)
    requires Inv(s) && o in s.electors
    ensures o in Next(s, a).electors && OkAfter(o, s.electors[o], Next(s, a).electors[o])
  {
    assert LocalOk(o, s.electors[o]);
    LocalStepOk(a, o, s.electors[o]);
  }

  lemma NextStoredOk(s: State, a: Action)
    requires Inv(s)
    ensures StoredOk(Next(s, a))
  {
    var s' := Next(s, a);
    if s'.stored.Some? && s'.stored.value.owner in s.electors {
      var o := s'.stored.value.owner;
      var l := s.electors[o];
      NextLocalOk(s, a, o);
      if s'.stored == s.stored {
        UnixMonotone(Deadline(l.lastNow.value, l.lease), Deadline(s'.electors[o].lastNow.value, l.lease));
      } else {
        assert LocalOk(a.who, s.electors[a.who]);
      }
    }
  }

  lemma NextInv(s: State, a: Action)
    requires Inv(s)
    ensures Inv(Next(s, a)) && Next(s, a).electors.Keys == s.electors.Keys
  {
    NextStoredOk(s, a);
    forall o | o in s.electors ensures o in Next(s, a).electors && LocalOk(o, Next(s, a).electors[o]) {
      NextLocalOk(s, a, o);
    }
  }

  lemma {:induction false} ExecInv(s: State, run: seq<Action>)
    requires Inv(s)
    ensures Inv(Exec(s, run)) && Exec(s, run).electors.Keys == s.electors.Keys
    decreases |run|
  {
    if run != [] {
      NextInv(s, run[0]);
      ExecInv(Next(s, run[0]), run[1..]);
    }
  }

  // ---------------------------------------------------------------- refinement

  /** The operation on the lease register a step amounts to, if any. */
  function OpOf(s: State, a: Action): seq<Op> {
    match a
    case TimeToLive => if Outdated(s) then [Expire(Unix(s.clock))] else []
    case LateDelete(who) => if Deletable(s, who) then [Release(who)] else []
    case Deliver(who, _) =>
      if who in s.electors && s.electors[who].pc.Calling? then
        match s.electors[who].pc.req
        case PutItem(item, nowUnix) =>
          if PutCondition(s.stored, who, nowUnix) then [Acquire(who, nowUnix, item.leaseUntil)] else []
        case DeleteItem => if DeleteCondition(s.stored, who) then [Release(who)] else []
        case GetItem => []
      else []
    case _ => []
  }

  function OpsOf(s: State, run: seq<Action>): seq<Op>
    decreases |run|
  {
    if run == [] then [] else OpOf(s, run[0]) + OpsOf(Next(s, run[0]), run[1..])
  }

  /** Every commit is one legal operation of the register: the conditional put only
      takes what is absent, its writer's own, or out of date in whole seconds, and
      Resign only removes its own elector's item. */
  lemma StepRefines(s: State, a: Action)
    requires Inv(s)
    ensures LegalRun(Abs(s), OpOf(s, a)) && Run(Abs(s), OpOf(s, a)) == Abs(Next(s, a))
  {
    if OpOf(s, a) != [] {
      assert OpOf(s, a)[1..] == [];
    }
    if a.Deliver? && a.who in s.electors && s.electors[a.who].pc.Calling? {
      var l := s.electors[a.who];
      assert LocalOk(a.who, l);
      if l.pc.req.PutItem? {
        UnixMonotone(l.pc.now, Deadline(l.pc.now, l.lease));
      }
    }
  }

  lemma {:induction false} RunRefines(s: State, run: seq<Action>)
    requires Inv(s)
    ensures LegalRun(Abs(s), OpsOf(s, run)) && LeaseRegister.Run(Abs(s), OpsOf(s, run)) == Abs(Exec(s, run))
    decreases |run|
  {
    if run != [] {
      StepRefines(s, run[0]);
      NextInv(s, run[0]);
      RunRefines(Next(s, run[0]), run[1..]);
      RunConcat(Abs(s), OpOf(s, run[0]), OpsOf(Next(s, run[0]), run[1..]));
    }
  }

  /** What the table does by itself and late: the time to live removes an item exactly
      when the table's clock, in whole seconds, is past its lease_until, and a delete that
      Resign has sent removes exactly its elector's item. */
  lemma LateRemovals(s: State, who: string)
    ensures Next(s, TimeToLive).stored.None? <==>
            s.stored.None? || s.stored.value.leaseUntil < s.clock / 1_000_000_000
    ensures who in s.electors && s.electors[who].deleteSent ==>
            (Next(s, LateDelete(who)).stored.None? <==> s.stored.None? || s.stored.value.owner == who)
    ensures who in s.electors && s.electors[who].phase.Cancelled? && s.electors[who].pc.Idle? ==>
            (Next(s, ResignCheck(who)).electors[who].deleteSent <==>
             s.electors[who].leader || s.electors[who].deleteSent)
  {
  }

  /** Between creation and removal of the item `lease_until` never decreases, and it
      increases whenever the owner changes. */
  lemma LeaseOnlyGrows(s: State, run: seq<Action>)
    requires Inv(s) && s.stored.Some?
    requires forall i :: 0 <= i < |OpsOf(s, run)| ==> OpsOf(s, run)[i].Acquire?
    ensures var s' := Exec(s, run);
            s'.stored.Some? && s.stored.value.leaseUntil <= s'.stored.value.leaseUntil &&
            (s.stored.value.owner != s'.stored.value.owner ==> s.stored.value.leaseUntil < s'.stored.value.leaseUntil)
  {
    RunRefines(s, run);
    DeadlineOnlyGrows(Abs(s), OpsOf(s, run));
  }

  // ---------------------------------------------------------------- exclusion

  /** All clocks, the table's included, are within `d` of each other. Clocks advance one at a
      time, so along a run on which two clocks move `d` is positive. */
  ghost predicate Synced(s: State, d: nat) {
    && (forall a, b :: a in s.electors && b in s.electors ==> s.electors[a].clock <= s.electors[b].clock + d)
    && (forall a :: a in s.electors ==> s.clock <= s.electors[a].clock + d)
  }

  ghost predicate SyncedRun(s: State, run: seq<Action>, d: nat)
    decreases |run|
  {
    Synced(s, d) && (run != [] ==> SyncedRun(Next(s, run[0]), run[1..], d))
  }

  predicate OutsideResign(l: Local) {
    l.phase.NotStarted? || l.phase.Running? || l.phase.Cancelled?
  }

  /** The exact deadlines an elector knows to be committed. */
  predicate Claims(l: Local, deadline: int) {
    || l.acked == Some(deadline)
    || (l.pc.Acked? && Deadline(l.pc.now, l.lease) == deadline)
    || (l.pc.Calling? && l.pc.req.PutItem? && l.pc.reply == Some(Done) && Deadline(l.pc.now, l.lease) == deadline)
  }

  predicate StoredFor(s: State, who: string, deadline: int) {
    s.stored.Some? && s.stored.value.owner == who && Unix(deadline) <= s.stored.value.leaseUntil
  }

  predicate ClaimOk(s: State, d: nat, who: string, l: Local, deadline: int) {
    deadline < l.clock + d || StoredFor(s, who, deadline)
  }

  ghost predicate ClaimsOk(s: State, d: nat) {
    forall o, u :: o in s.electors && OutsideResign(s.electors[o]) && Claims(s.electors[o], u) ==>
      ClaimOk(s, d, o, s.electors[o], u)
  }

  /** A claim survives every step on the table. */
  lemma CommitKeepsClaim(s: State, a: Action, d: nat, o: string, u: int)
    requires Inv(s) && Synced(s, d) && o in s.electors && OutsideResign(s.electors[o])
    requires Claims(s.electors[o], u) && ClaimOk(s, d, o, s.electors[o], u)
    requires a.Deliver? || a.TimeToLive? || a.LateDelete?
    ensures StoredFor(Next(s, a), o, u) || u < s.electors[o].clock + d
  {
    var l := s.electors[o];
    assert LocalOk(o, l);
    if l.clock + d <= u {
      if a.TimeToLive? {
        UnixMonotone(s.clock, u);
      } else if a.Deliver? && a.who in s.electors && s.electors[a.who].pc.Calling? {
        var w := s.electors[a.who];
        assert LocalOk(a.who, w);
        if w.pc.req.PutItem? {
          if a.who == o { UnixMonotone(u, Deadline(w.pc.now, w.lease)); } else { UnixMonotone(w.pc.now, u); }
        }
      }
    }
  }

  lemma LocalStepFrame(a: Action, who: string, l: Local)
    requires LocalOk(who, l)
    ensures var l' := LocalStep(a, who, l);
      && l.clock <= l'.clock && (OutsideResign(l') ==> OutsideResign(l))
      && (forall u :: Claims(l', u) ==> Claims(l, u))
  {
  }

  lemma NextClaims(s: State, a: Action, d: nat)
    requires Inv(s) && Synced(s, d) && ClaimsOk(s, d)
    ensures ClaimsOk(Next(s, a), d)
  {
    var s' := Next(s, a);
    forall o, u | o in s'.electors && OutsideResign(s'.electors[o]) && Claims(s'.electors[o], u)
      ensures ClaimOk(s', d, o, s'.electors[o], u)
    {
      NextClaim(s, a, d, o, u);
    }
  }

  lemma NextClaim(s: State, a: Action, d: nat, o: string, u: int)
    requires Inv(s) && Synced(s, d) && ClaimsOk(s, d) && o in s.electors && o in Next(s, a).electors
    requires OutsideResign(Next(s, a).electors[o]) && Claims(Next(s, a).electors[o], u)
    ensures ClaimOk(Next(s, a), d, o, Next(s, a).electors[o], u)
  {
    assert LocalOk(o, s.electors[o]);
    if a.Deliver? || a.TimeToLive? || a.LateDelete? {
      CommittedClaim(s, a, d, o, u);
    } else {
      LocalClaim(s, a, d, o, u);
    }
  }

  lemma LocalClaim(s: State, a: Action, d: nat, o: string, u: int)
    requires o in s.electors && LocalOk(o, s.electors[o]) && ClaimsOk(s, d) && o in Next(s, a).electors
    requires OutsideResign(Next(s, a).electors[o]) && Claims(Next(s, a).electors[o], u)
    requires !a.Deliver? && !a.TimeToLive? && !a.LateDelete?
    ensures ClaimOk(Next(s, a), d, o, Next(s, a).electors[o], u)
  {
    LocalStepFrame(a, o, s.electors[o]);
    assert ClaimOk(s, d, o, s.electors[o], u);
  }

  lemma CommittedClaim(s: State, a: Action, d: nat, o: string, u: int)
    requires Inv(s) && Synced(s, d) && ClaimsOk(s, d) && o in s.electors && o in Next(s, a).electors
    requires OutsideResign(Next(s, a).electors[o]) && Claims(Next(s, a).electors[o], u)
    requires a.Deliver? || a.TimeToLive? || a.LateDelete?
    ensures ClaimOk(Next(s, a), d, o, Next(s, a).electors[o], u)
  {
    if Claims(s.electors[o], u) {
      assert ClaimOk(s, d, o, s.electors[o], u);
      CommitKeepsClaim(s, a, d, o, u);
    }
  }

  lemma {:induction false} ExecClaims(s: State, run: seq<Action>, d: nat)
    requires Inv(s) && SyncedRun(s, run, d) && ClaimsOk(s, d)
    ensures Inv(Exec(s, run)) && ClaimsOk(Exec(s, run), d)
    decreases |run|
  {
    if run != [] {
      NextInv(s, run[0]);
      NextClaims(s, run[0], d);
      ExecClaims(Next(s, run[0]), run[1..], d);
    }
  }

  /** `who` says it is leader, is outside Resign, and the start of its last
      acknowledged tick plus 3 * Lease is at least the skew ahead of its clock. */
  predicate Leads(s: State, who: string, d: nat) {
    who in s.electors &&
    var l := s.electors[who];
    l.leader && OutsideResign(l) && l.acked.Some? && l.clock + d <= l.acked.value
  }

  /** Exclusion: in every state of every run, with replies lost, calls retried,
      deletes that land late and outdated items removed by the table, at most one elector leads, and it is then
      the stored owner with at least its acknowledged deadline. */
  lemma Exclusion(s: State, run: seq<Action>, d: nat, a: string, b: string)
    requires Init(s) && SyncedRun(s, run, d)
    ensures var s' := Exec(s, run);
      && (Leads(s', a, d) ==> StoredFor(s', a, s'.electors[a].acked.value))
      && (Leads(s', a, d) && Leads(s', b, d) ==> a == b)
  {
    InitInv(s);
    ExecClaims(s, run, d);
    var s' := Exec(s, run);
    if Leads(s', a, d) {
      assert ClaimOk(s', d, a, s'.electors[a], s'.electors[a].acked.value);
    }
    if Leads(s', b, d) {
      assert ClaimOk(s', d, b, s'.electors[b], s'.electors[b].acked.value);
    }
  }

  // ---------------------------------------------------------------- resignation

  ghost predicate NeverLeader(s: State, run: seq<Action>, p: string)
    decreases |run|
  {
    p in s.electors && !s.electors[p].leader && (run != [] ==> NeverLeader(Next(s, run[0]), run[1..], p))
  }

  /** After Resign of a started elector has returned, the flag stays down in every
      later state, whatever is called on it, Start included. */
  lemma {:induction false} ResignIsFinal(s: State, run: seq<Action>, o: string)
    requires Inv(s) && o in s.electors && s.electors[o].phase.Resigned?
    ensures NeverLeader(s, run, o)
    decreases |run|
  {
    assert LocalOk(o, s.electors[o]);
    if run != [] {
      NextInv(s, run[0]);
      ResignIsFinal(Next(s, run[0]), run[1..], o);
    }
  }
}
