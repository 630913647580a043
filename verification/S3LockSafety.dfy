/** What every run of the s3lock electors keeps. */
module S3LockSafety {
  import opened Common
  import opened Electors
  import opened S3LockProtocol

  // ---------------------------------------------------------------- invariant

  /** The document `d` may be overwritten by `who`, whose tick read its clock as
      `now`: it is `who`'s own and not longer than the new lease, or expired. */
  predicate Overwritable(d: Doc, who: string, now: int, lease: int) {
    if d.owner == who then d.leaseUntil <= LeaseEnd(now, lease) else d.leaseUntil <= now
  }

  predicate WroteOwn(s: State, who: string, etag: string, leaseUntil: int) {
    etag in s.bodies && s.bodies[etag] == Encoded(Doc(who, leaseUntil))
  }

  /** `t` is not after the start of the latest tick. */
  predicate NotAfter(t: int, lastNow: Option<int>) {
    lastNow.Some? && t <= lastNow.value
  }

  predicate RequestOk(s: State, req: Request) {
    req.owner in s.electors &&
    var l := s.electors[req.owner];
    match req
    case Put(who, now, lease, cond) =>
      && lease == l.lease && NotAfter(now, l.lastNow)
      && (cond.IfMatch? ==>
            cond.etag in s.bodies && Overwritable(ParseDoc(s.bodies[cond.etag]), who, now, lease))
    case Get(_) => true
    case Delete(who, etag) =>
      && etag in s.bodies && ParseDoc(s.bodies[etag]).owner == who
      && (l.phase.Deleting? || l.phase.Resigned?)
  }

  predicate ReplyOk(s: State, who: string, l: Local, req: Request, now: int, reply: Reply) {
    match reply
    case Written(etag) => req.Put? && WroteOwn(s, who, etag, LeaseEnd(now, l.lease))
    case Found(body, etag) => req.Get? && etag in s.bodies && s.bodies[etag] == body
    case NoSuchKey => req.Get?
    case Deleted => req.Delete?
    case PreconditionFailed => !req.Get?
  }

  predicate PcOk(s: State, who: string, l: Local) {
    match l.pc
    case Idle => l.phase != Deleting
    case Calling(req, now, reply) =>
      && req in s.sent && req.owner == who
      && (req.Delete? <==> l.phase.Deleting?)
      && (!req.Delete? ==> l.lastNow == Some(now) && (l.phase.Running? || l.phase.Cancelled?))
      && (req.Put? ==> req.now == now)
      && (reply.Some? ==> ReplyOk(s, who, l, req, now, reply.value))
    case Acked(etag, now) =>
      && etag != "" && l.lastNow == Some(now) && (l.phase.Running? || l.phase.Cancelled?)
      && WroteOwn(s, who, etag, LeaseEnd(now, l.lease))
    case Storing(flag) =>
      && (l.phase.Running? || l.phase.Cancelled? || (l.phase.Deleting? && !flag))
      && (flag ==> l.heldETag != "")
    case Clearing => l.phase.Deleting? && !l.leader
  }

  predicate LocalOk(s: State, who: string, l: Local) {
    && l.lease > 0
    && (l.lastNow.Some? ==> l.lastNow.value <= l.clock)
    && PcOk(s, who, l)
    && (l.leader ==> l.heldETag != "")
    && (l.heldETag != "" ==> l.acked.Some? && l.acked.value.etag == l.heldETag)
    && (l.acked.Some? ==> WroteOwn(s, who, l.acked.value.etag, l.acked.value.leaseUntil))
    && (l.phase.NotStarted? || l.phase.Resigned? ==> !l.leader && l.pc.Idle?)
    && (l.phase.NotStarted? ==> l.lastNow.None? && l.acked.None?)
  }

  /** Everything an elector ever wrote ends no later than its latest tick allows. */
  predicate BodyOk(s: State, b: Body) {
    var d := ParseDoc(b);
    d.owner in s.electors ==>
      var l := s.electors[d.owner];
      l.lastNow.Some? && d.leaseUntil <= LeaseEnd(l.lastNow.value, l.lease)
  }

  predicate StoredOk(s: State) {
    s.stored.Some? ==> s.stored.value.etag in s.bodies && s.bodies[s.stored.value.etag] == s.stored.value.body
  }

  predicate Inv(s: State) {
    && "" !in s.bodies && "" !in s.electors
    && StoredOk(s)
    && (forall req :: req in s.sent ==> RequestOk(s, req))
    && (forall o :: o in s.electors ==> LocalOk(s, o, s.electors[o]))
    && (forall e :: e in s.bodies ==> BodyOk(s, s.bodies[e]))
  }

  lemma InitInv(s: State)
    requires Init(s)
    ensures Inv(s)
  {
  }

  // ---------------------------------------------------------------- preservation

  predicate PhaseAfter(p: Phase, q: Phase) {
    (p.Deleting? || p.Resigned?) ==> (q.Deleting? || q.Resigned?)
  }

  predicate LocalGrows(l: Local, l': Local) {
    && l.lease == l'.lease && PhaseAfter(l.phase, l'.phase)
    && (l.lastNow.Some? ==> l'.lastNow.Some? && l.lastNow.value <= l'.lastNow.value)
  }

  /** History is only ever extended. */
  predicate Grows(s: State, s': State) {
    && s.electors.Keys == s'.electors.Keys && s.sent <= s'.sent
    && (forall e :: e in s.bodies ==> e in s'.bodies && s'.bodies[e] == s.bodies[e])
    && (forall o :: o in s.electors ==> LocalGrows(s.electors[o], s'.electors[o]))
  }

  lemma RequestOkGrows(s: State, s': State, req: Request)
    requires Grows(s, s') && RequestOk(s, req)
    ensures RequestOk(s', req)
  {
    assert LocalGrows(s.electors[req.owner], s'.electors[req.owner]);
  }

  lemma LocalOkGrows(s: State, s': State, who: string, l: Local)
    requires Grows(s, s') && LocalOk(s, who, l)
    ensures LocalOk(s', who, l)
  {
  }

  lemma BodyOkGrows(s: State, s': State, b: Body)
    requires Grows(s, s') && BodyOk(s, b)
    ensures BodyOk(s', b)
  {
    var d := ParseDoc(b);
    if d.owner in s.electors {
      assert LocalGrows(s.electors[d.owner], s'.electors[d.owner]);
    }
  }

  /** A step that extends history keeps the invariant when what it adds is fine. */
  lemma InvGrows(s: State, s': State)
    requires Inv(s) && Grows(s, s')
    requires "" !in s'.bodies && StoredOk(s')
    requires forall req :: req in s'.sent - s.sent ==> RequestOk(s', req)
    requires forall o :: o in s'.electors && s'.electors[o] != s.electors[o] ==> LocalOk(s', o, s'.electors[o])
    requires forall e :: e in s'.bodies.Keys - s.bodies.Keys ==> BodyOk(s', s'.bodies[e])
    ensures Inv(s')
  {
    forall req | req in s'.sent ensures RequestOk(s', req) {
      if req in s.sent { RequestOkGrows(s, s', req); }
    }
    forall o | o in s'.electors ensures LocalOk(s', o, s'.electors[o]) {
      if s'.electors[o] == s.electors[o] { LocalOkGrows(s, s', o, s.electors[o]); }
    }
    forall e | e in s'.bodies ensures BodyOk(s', s'.bodies[e]) {
      if e in s.bodies { BodyOkGrows(s, s', s.bodies[e]); }
    }
  }

  lemma DeliverGrows(s: State, req: Request, tag: string, report: bool)
    ensures Grows(s, DeliverTo(s, req, tag, report))
  {
  }

  lemma ReplyInv(s: State, s': State, req: Request, tag: string)
    requires Inv(s) && req in s.sent && Grows(s, s')
    requires req.Put? && Matches(s.stored, req.cond) ==> tag in s'.bodies && s'.bodies[tag] == BodyOf(req)
    requires s.electors[req.owner].pc.Calling? && s.electors[req.owner].pc.req == req
    ensures var l := s.electors[req.owner];
            LocalOk(s', req.owner, l.(pc := l.pc.(reply := Some(Serve(s.stored, req, tag).1))))
  {
    LocalOkGrows(s, s', req.owner, s.electors[req.owner]);
    assert RequestOk(s, req);
  }

  lemma DeliverInv(s: State, req: Request, tag: string, report: bool)
    requires Inv(s) && req in s.sent
    ensures Inv(DeliverTo(s, req, tag, report))
  {
    var s' := DeliverTo(s, req, tag, report);
    DeliverGrows(s, req, tag, report);
    assert RequestOk(s, req);
    if s' != s {
      if report && s.electors[req.owner].pc.Calling? && s.electors[req.owner].pc.req == req {
        ReplyInv(s, s', req, tag);
      }
      InvGrows(s, s');
    }
  }

  lemma IssueInv(s: State, who: string, l': Local, req: Request, now: int)
    requires Inv(s) && who in s.electors && LocalGrows(s.electors[who], l')
    requires RequestOk(s.(electors := s.electors[who := l']), req)
    requires var s' := Issue(s, who, l', req, now); LocalOk(s', who, s'.electors[who])
    ensures Inv(Issue(s, who, l', req, now))
  {
    var s' := Issue(s, who, l', req, now);
    assert RequestOk(s', req);
    InvGrows(s, s');
  }

  lemma SetLocalInv(s: State, who: string, l': Local)
    requires Inv(s) && who in s.electors && LocalGrows(s.electors[who], l')
    requires LocalOk(s, who, l')
    ensures Inv(SetLocal(s, who, l'))
  {
    var s' := SetLocal(s, who, l');
    assert Grows(s, s');
    LocalOkGrows(s, s', who, l');
    InvGrows(s, s');
  }

  /** Replacing or stealing the document just read is a well-formed request. */
  lemma ReplaceInv(s: State, who: string, body: Body, etag: string)
    requires Inv(s) && who in s.electors && s.electors[who].pc.Calling?
    requires s.electors[who].pc.req.Get? && s.electors[who].pc.reply == Some(Found(body, etag))
    requires ParseDoc(body).owner == who || ParseDoc(body).leaseUntil <= s.electors[who].pc.now
    ensures var l := s.electors[who];
            Inv(Issue(s, who, l, Put(who, l.pc.now, l.lease, IfMatch(etag)), l.pc.now))
  {
    var l := s.electors[who];
    assert LocalOk(s, who, l);
    var now := l.pc.now;
    var req := Put(who, now, l.lease, IfMatch(etag));
    assert BodyOk(s, s.bodies[etag]);
    var s' := Issue(s, who, l, req, now);
    LocalOkGrows(s, s', who, l);
    IssueInv(s, who, l, req, now);
  }

  lemma InspectInv(s: State, who: string)
    requires Inv(s) && who in s.electors && s.electors[who].pc.Calling?
    requires s.electors[who].pc.req.Put?
    ensures var l := s.electors[who]; Inv(Issue(s, who, l, Get(who), l.pc.now))
  {
    var l := s.electors[who];
    assert LocalOk(s, who, l);
    var s' := Issue(s, who, l, Get(who), l.pc.now);
    LocalOkGrows(s, s', who, l);
    IssueInv(s, who, l, Get(who), l.pc.now);
  }

  lemma AnswerInv(s: State, who: string, lost: bool)
    requires Inv(s) && who in s.electors && s.electors[who].pc.Calling?
    ensures Inv(OnAnswer(s, who, s.electors[who], lost))
  {
    var l := s.electors[who];
    assert LocalOk(s, who, l);
    var Calling(req, now, reply) := l.pc;
    if lost || reply.None? || req.Delete? {
      SetLocalInv(s, who, l.(pc := if req.Delete? then Storing(false) else Idle));
    } else {
      match reply.value {
        case PreconditionFailed =>
          if req.cond.IfNoneMatch? { InspectInv(s, who); } else { SetLocalInv(s, who, l.(pc := Storing(false))); }
        case Found(body, etag) =>
          if ParseDoc(body).owner == who || ParseDoc(body).leaseUntil <= now {
            ReplaceInv(s, who, body, etag);
          } else {
            SetLocalInv(s, who, l.(pc := Storing(false)));
          }
        case Written(etag) => SetLocalInv(s, who, l.(pc := Acked(etag, now)));
        case NoSuchKey => SetLocalInv(s, who, l.(pc := Storing(false)));
        case Deleted =>
      }
    }
  }

  lemma LocalStepInv(s: State, a: Action)
    requires Inv(s) && !a.Deliver? && a.who in s.electors
    ensures Inv(Next(s, a))
  {
    var who, l := a.who, s.electors[a.who];
    assert LocalOk(s, who, l);
    match a {
      case Answer(_, lost) => if l.pc.Calling? { AnswerInv(s, who, lost); }
      case BeginTick(_) =>
        if (l.phase.Running? || l.phase.Cancelled?) && l.pc.Idle? {
          IssueInv(s, who, l.(lastNow := Some(l.clock)), Put(who, l.clock, l.lease, IfNoneMatch), l.clock);
        }
      case ResignCheck(_) =>
        if l.phase.Cancelled? && l.pc.Idle? {
          if !l.leader || l.heldETag == "" {
            SetLocalInv(s, who, l.(phase := Resigned));
          } else {
            IssueInv(s, who, l.(phase := Deleting), Delete(who, l.heldETag), l.clock);
          }
        }
      case Update(_) => SetLocalInv(s, who, OnUpdate(l));
      case Advance(_, to) => if l.clock <= to { SetLocalInv(s, who, l.(clock := to)); }
      case Start(_) => if l.phase.NotStarted? { SetLocalInv(s, who, l.(phase := Running)); }
      case Cancel(_) => if l.phase.Running? { SetLocalInv(s, who, l.(phase := Cancelled)); }
    }
  }

  lemma NextInv(s: State, a: Action)
    requires Inv(s)
    ensures Inv(Next(s, a))
  {
    if a.Deliver? {
      if a.req in s.sent { DeliverInv(s, a.req, a.tag, a.report); }
    } else if a.who in s.electors {
      LocalStepInv(s, a);
    }
  }

  lemma {:induction false} ExecInv(s: State, run: seq<Action>)
    requires Inv(s)
    ensures Inv(Exec(s, run))
    decreases |run|
  {
    if run != [] {
      NextInv(s, run[0]);
      ExecInv(Next(s, run[0]), run[1..]);
    }
  }
}
