/** The s3lock leader electors as a transition system. Any number of electors
    share one S3 object; every step is one backend call taking effect, one reply
    reaching its caller, or one update of an elector's own fields.

    `Next` is total: an action that is not enabled leaves the state unchanged, so
    a run is any sequence of actions whatsoever. */
module S3LockProtocol {
  import opened Common
  import opened Electors
  import opened LeaseRegister

  /** Times are nanoseconds after the zero time of the lock document. */
  const ZERO_TIME: int := 0

  datatype Doc = Doc(owner: string, leaseUntil: int)

  /** A stored body: the injective encoding of a document, or bytes that do not
      decode. */
  datatype Body = Encoded(doc: Doc) | Corrupt

  function ParseDoc(b: Body): Doc {
    match b
    case Encoded(doc) => doc
    case Corrupt => Doc("", ZERO_TIME)
  }

  // ---------------------------------------------------------------- backend

  datatype Object = Object(body: Body, etag: string)

  /** Preconditions of a write, sections 13.1.1 and 13.1.2 of RFC 9110. */
  datatype Precondition = IfNoneMatch | IfMatch(etag: string)

  datatype Request =
    | Put(owner: string, now: int, lease: int, cond: Precondition)
    | Get(owner: string)
    | Delete(owner: string, etag: string)

  datatype Reply =
    | Written(etag: string)
    | Found(body: Body, etag: string)
    | NoSuchKey
    | Deleted
    | PreconditionFailed

  function LeaseEnd(now: int, lease: int): int { now + 3 * lease }

  /** The body a put carries. */
  function BodyOf(req: Request): Body
    requires req.Put?
  {
    Encoded(Doc(req.owner, LeaseEnd(req.now, req.lease)))
  }

  predicate Matches(stored: Option<Object>, cond: Precondition) {
    match cond
    case IfNoneMatch => stored.None?
    case IfMatch(etag) => stored.Some? && stored.value.etag == etag
  }

  /** What the backend does with one request: the object afterwards and the
      reply. `tag` is the ETag the backend picks for a new version. */
  function Serve(stored: Option<Object>, req: Request, tag: string): (Option<Object>, Reply) {
    match req
    case Put(_, _, _, cond) =>
      if Matches(stored, cond) then (Some(Object(BodyOf(req), tag)), Written(tag))
      else (stored, PreconditionFailed)
    case Get(_) =>
      (stored, if stored.None? then NoSuchKey else Found(stored.value.body, stored.value.etag))
    case Delete(_, etag) =>
      if stored.None? then (stored, Deleted)
      else if stored.value.etag == etag then (None, Deleted)
      else (stored, PreconditionFailed)
  }

  /** ETags are opaque: the backend may pick any non-empty tag, as long as equal
      tags name equal bodies. */
  predicate TagAllowed(bodies: map<string, Body>, tag: string, body: Body) {
    tag != "" && (tag in bodies ==> bodies[tag] == body)
  }

  // ---------------------------------------------------------------- electors

  /** Where an elector is inside `tick` or `Resign`.
      - `Calling`: a request is on the wire; `reply` is what the backend answered.
      - `Acked`: a put was acknowledged; `heldETag` is about to be assigned.
      - `Storing`: `leader.Store(flag)` is about to run.
      - `Clearing`: Resign is about to clear `heldETag`. */
  datatype Pc =
    | Idle
    | Calling(req: Request, now: int, reply: Option<Reply>)
    | Acked(etag: string, now: int)
    | Storing(flag: bool)
    | Clearing

  datatype Ack = Ack(etag: string, leaseUntil: int)

  /** One elector. `lastNow` (the clock read at the start of the latest tick) and
      `acked` (the latest acknowledged write) only record history. */
  datatype Local = Local(
    lease: int,
    clock: int,
    leader: bool,
    heldETag: string,
    phase: Phase,
    pc: Pc,
    lastNow: Option<int>,
    acked: Option<Ack>)

  /** `bodies` records the body of every ETag ever issued. `sent` holds every
      request ever issued: any of them may take effect at any later time, any
      number of times, whether or not its caller still waits. */
  datatype State = State(
    stored: Option<Object>,
    bodies: map<string, Body>,
    sent: set<Request>,
    electors: map<string, Local>)

  datatype Action =
    | Advance(who: string, to: int)
    | Start(who: string)
    | BeginTick(who: string)
    | Deliver(req: Request, tag: string, report: bool)
    | Answer(who: string, lost: bool)
    | Update(who: string)
    | Cancel(who: string)
    | ResignCheck(who: string)

  function Issue(s: State, who: string, l: Local, req: Request, now: int): State {
    s.(sent := s.sent + {req},
       electors := s.electors[who := l.(pc := Calling(req, now, None))])
  }

  function SetLocal(s: State, who: string, l: Local): State {
    s.(electors := s.electors[who := l])
  }

  /** The backend processes a request; when `report` holds and the issuer still
      waits for exactly this request, the outcome becomes its pending reply. */
  function DeliverTo(s: State, req: Request, tag: string, report: bool): State {
    var (stored, reply) := Serve(s.stored, req, tag);
    var commits := req.Put? && Matches(s.stored, req.cond);
    if commits && !TagAllowed(s.bodies, tag, BodyOf(req)) then s
    else
      var s1 := s.(stored := stored,
                   bodies := if commits then s.bodies[tag := BodyOf(req)] else s.bodies);
      if report && req.owner in s.electors && s.electors[req.owner].pc.Calling? &&
         s.electors[req.owner].pc.req == req then
        var l := s.electors[req.owner];
        SetLocal(s1, req.owner, l.(pc := l.pc.(reply := Some(reply))))
      else s1
  }

  /** The caller resumes with an answer. A lost answer is a transport error: tick
      returns and keeps the flag. */
  function OnAnswer(s: State, who: string, l: Local, lost: bool): State
    requires l.pc.Calling?
  {
    var Calling(req, now, reply) := l.pc;
    if req.Delete? then
      if lost || reply.Some? then SetLocal(s, who, l.(pc := Storing(false))) else s
    else if lost then SetLocal(s, who, l.(pc := Idle))
    else
      match reply
      case None => s
      case Some(Written(etag)) => SetLocal(s, who, l.(pc := Acked(etag, now)))
      case Some(PreconditionFailed) =>
        if req.Put? && req.cond.IfNoneMatch? then Issue(s, who, l, Get(who), now)
        else SetLocal(s, who, l.(pc := Storing(false)))
      case Some(NoSuchKey) => SetLocal(s, who, l.(pc := Storing(false)))
      case Some(Found(body, etag)) =>
        var doc := ParseDoc(body);
        if doc.owner == who || doc.leaseUntil <= now then
          Issue(s, who, l, Put(who, now, l.lease, IfMatch(etag)), now)
        else SetLocal(s, who, l.(pc := Storing(false)))
      case Some(Deleted) => s
  }

  /** One assignment to the elector's own fields. */
  function OnUpdate(l: Local): Local {
    match l.pc
    case Acked(etag, now) =>
      l.(heldETag := etag, acked := Some(Ack(etag, LeaseEnd(now, l.lease))), pc := Storing(true))
    case Storing(flag) =>
      l.(leader := flag, pc := if l.phase.Deleting? then Clearing else Idle)
    case Clearing => l.(heldETag := "", pc := Idle, phase := Resigned)
    case _ => l
  }

  function NextOf(s: State, a: Action, who: string, l: Local): State {
    match a
    case Advance(_, to) => if l.clock <= to then SetLocal(s, who, l.(clock := to)) else s
    case Start(_) => if l.phase.NotStarted? then SetLocal(s, who, l.(phase := Running)) else s
    case BeginTick(_) =>
      if (l.phase.Running? || l.phase.Cancelled?) && l.pc.Idle? then
        var l1 := l.(lastNow := Some(l.clock));
        Issue(s, who, l1, Put(who, l.clock, l.lease, IfNoneMatch), l.clock)
      else s
    case Answer(_, lost) => if l.pc.Calling? then OnAnswer(s, who, l, lost) else s
    case Update(_) => SetLocal(s, who, OnUpdate(l))
    case Cancel(_) => if l.phase.Running? then SetLocal(s, who, l.(phase := Cancelled)) else s
    case ResignCheck(_) =>
      if l.phase.Cancelled? && l.pc.Idle? then
        if !l.leader || l.heldETag == "" then SetLocal(s, who, l.(phase := Resigned))
        else Issue(s, who, l.(phase := Deleting), Delete(who, l.heldETag), l.clock)
      else s
    case Deliver(_, _, _) => s
  }

  function Next(s: State, a: Action): State {
    if a.Deliver? then
      if a.req in s.sent then DeliverTo(s, a.req, a.tag, a.report) else s
    else if a.who in s.electors then NextOf(s, a, a.who, s.electors[a.who])
    else s
  }

  function Exec(s: State, run: seq<Action>): State
    decreases |run|
  {
    if run == [] then s else Exec(Next(s, run[0]), run[1..])
  }

  lemma {:induction false} ExecConcat(s: State, a: seq<Action>, b: seq<Action>)
    ensures Exec(s, a + b) == Exec(Exec(s, a), b)
    decreases |a|
  {
    if a == [] {
      assert a + b == b;
    } else {
      ExecConcat(Next(s, a[0]), a[1..], b);
      assert (a + b)[1..] == a[1..] + b;
    }
  }

  // ---------------------------------------------------------------- initial states

  /** No elector has started. The object is absent, or left over from somebody
      who is not among the electors, possibly undecodable. */
  predicate Init(s: State) {
    && s.sent == {}
    && "" !in s.bodies && "" !in s.electors
    && (forall o :: o in s.electors ==>
          var l := s.electors[o];
          l.lease > 0 && !l.leader && l.heldETag == "" && l.phase.NotStarted? && l.pc.Idle? &&
          l.lastNow.None? && l.acked.None?)
    && (forall e :: e in s.bodies ==> ParseDoc(s.bodies[e]).owner !in s.electors)
    && (s.stored.Some? ==> s.stored.value.etag in s.bodies &&
                           s.bodies[s.stored.value.etag] == s.stored.value.body)
  }

  /** The lease register a state represents. */
  function Abs(s: State): Register {
    if s.stored.None? then Free
    else var d := ParseDoc(s.stored.value.body); Held(d.owner, d.leaseUntil)
  }
}
