/** The dynamolock leader electors as a transition system: electors share one
    DynamoDB item and change it by single conditional writes whose deadlines are
    whole seconds. As in S3LockProtocol, `Next` is total and a run is any sequence
    of actions. A put may take effect only while its caller waits for it; the delete
    of Resign also at any time after Resign has given up on it. */
module DynamoLockProtocol {
  import opened Common
  import opened Electors
  import opened LeaseRegister

  /** Times are nanoseconds after the Unix epoch. */
  const SECOND: int := 1_000_000_000

  const MAX_INT64: int := 0x7fff_ffff_ffff_ffff

  /** `time.Time.Unix`: whole seconds, rounded down. */
  function Unix(t: int): int { t / SECOND }

  function Deadline(now: int, lease: int): int { now + 3 * lease }

  /** `heldVersion + 1` in 64 bits, restarted at 1 when it wraps. */
  function NextVersion(held: int): int {
    if held == MAX_INT64 || held + 1 <= 0 then 1 else held + 1
  }

  datatype Item = Item(owner: string, leaseUntil: int, version: int)

  datatype Request =
    | PutItem(item: Item, nowUnix: int)
    | GetItem
    | DeleteItem

  datatype Reply =
    | Done
    | ConditionFailed
    | Got(item: Option<Item>)

  /** attribute_not_exists(lock_id) OR owner = :us OR lease_until < :now */
  predicate PutCondition(stored: Option<Item>, us: string, nowUnix: int) {
    stored.None? || stored.value.owner == us || stored.value.leaseUntil < nowUnix
  }

  predicate DeleteCondition(stored: Option<Item>, us: string) {
    stored.Some? && stored.value.owner == us
  }

  /** What the table does with one request of `us`. */
  function Serve(stored: Option<Item>, us: string, req: Request): (Option<Item>, Reply) {
    match req
    case PutItem(item, nowUnix) =>
      if PutCondition(stored, us, nowUnix) then (Some(item), Done) else (stored, ConditionFailed)
    case GetItem => (stored, Got(stored))
    case DeleteItem =>
      if DeleteCondition(stored, us) then (None, Done) else (stored, ConditionFailed)
  }

  /** Where an elector is inside `tick` or `Resign`, as in S3LockProtocol. */
  datatype Pc =
    | Idle
    | Calling(req: Request, now: int, reply: Option<Reply>)
    | Acked(version: int, now: int)
    | Storing(flag: bool)
    | Clearing

  /** `lastNow`, `acked` (the exact deadline of the latest acknowledged write, before
      truncation) and `deleteSent` (Resign has issued its delete) only record history. */
  datatype Local = Local(
    lease: int,
    clock: int,
    leader: bool,
    heldVersion: int,
    phase: Phase,
    pc: Pc,
    lastNow: Option<int>,
    acked: Option<int>,
    deleteSent: bool)

  /** `clock` is the table's own, by which it deletes outdated items. */
  datatype State = State(stored: Option<Item>, clock: int, electors: map<string, Local>)

  datatype Action =
    | Advance(who: string, to: int)
    | Start(who: string)
    | BeginTick(who: string)
    | Deliver(who: string, report: bool)
    | Answer(who: string, lost: bool)
    | Update(who: string)
    | Cancel(who: string)
    | ResignCheck(who: string)
    | LateDelete(who: string)
    | AdvanceTable(to: int)
    | TimeToLive

  function SetLocal(s: State, who: string, l: Local): State {
    s.(electors := s.electors[who := l])
  }

  function NewItem(who: string, l: Local): Item {
    Item(who, Unix(Deadline(l.clock, l.lease)), NextVersion(l.heldVersion))
  }

  /** The table processes the call `who` waits for, once more if it already did. */
  function OnDeliver(s: State, who: string, l: Local, report: bool): State
    requires l.pc.Calling?
  {
    var (stored, reply) := Serve(s.stored, who, l.pc.req);
    var s1 := s.(stored := stored);
    if report then SetLocal(s1, who, l.(pc := l.pc.(reply := Some(reply)))) else s1
  }

  /** The caller resumes. A transport error of a tick keeps the flag; so does an
      item of our own that has run out by now. */
  function OnAnswer(who: string, l: Local, lost: bool): Local
    requires l.pc.Calling?
  {
    var Calling(req, now, reply) := l.pc;
    if req.DeleteItem? then
      if lost || reply.Some? then l.(pc := Storing(false)) else l
    else if lost then l.(pc := Idle)
    else
      match reply
      case None => l
      case Some(Done) =>
        if req.PutItem? then l.(pc := Acked(req.item.version, now)) else l
      case Some(ConditionFailed) => l.(pc := Calling(GetItem, now, None))
      case Some(Got(None)) => l.(pc := Storing(false))
      case Some(Got(Some(item))) =>
        if item.owner != who || item.leaseUntil > Unix(now) then l.(pc := Storing(false))
        else l.(pc := Idle)
  }

  function OnUpdate(l: Local): Local {
    match l.pc
    case Acked(version, now) =>
      l.(heldVersion := version, acked := Some(Deadline(now, l.lease)), pc := Storing(true))
    case Storing(flag) =>
      l.(leader := flag, pc := if l.phase.Deleting? then Clearing else Idle)
    case Clearing => l.(heldVersion := 0, pc := Idle, phase := Resigned)
    case _ => l
  }

  /** What an action makes of the acting elector. */
  function LocalStep(a: Action, who: string, l: Local): Local {
    match a
    case Advance(_, to) => if l.clock <= to then l.(clock := to) else l
    case Start(_) => if l.phase.NotStarted? then l.(phase := Running) else l
    case BeginTick(_) =>
      if (l.phase.Running? || l.phase.Cancelled?) && l.pc.Idle? then
        l.(lastNow := Some(l.clock), pc := Calling(PutItem(NewItem(who, l), Unix(l.clock)), l.clock, None))
      else l
    case Answer(_, lost) => if l.pc.Calling? then OnAnswer(who, l, lost) else l
    case Update(_) => OnUpdate(l)
    case Cancel(_) => if l.phase.Running? then l.(phase := Cancelled) else l
    case ResignCheck(_) =>
      if l.phase.Cancelled? && l.pc.Idle? then
        if !l.leader then l.(phase := Resigned)
        else l.(phase := Deleting, pc := Calling(DeleteItem, l.clock, None), deleteSent := true)
      else l
    case _ => l
  }

  /** DynamoDB's time to live removes the item once its own clock, in whole seconds,
      is past `lease_until`. */
  predicate Outdated(s: State) {
    s.stored.Some? && s.stored.value.leaseUntil < Unix(s.clock)
  }

  /** A delete that Resign has sent still finds an item of its elector. */
  predicate Deletable(s: State, who: string) {
    who in s.electors && s.electors[who].deleteSent && DeleteCondition(s.stored, who)
  }

  function Next(s: State, a: Action): State {
    match a
    case LateDelete(who) => if Deletable(s, who) then s.(stored := None) else s
    case AdvanceTable(to) => if s.clock <= to then s.(clock := to) else s
    case TimeToLive => if Outdated(s) then s.(stored := None) else s
    case Deliver(who, report) =>
      if who in s.electors && s.electors[who].pc.Calling? then OnDeliver(s, who, s.electors[who], report) else s
    case _ => if a.who in s.electors then SetLocal(s, a.who, LocalStep(a, a.who, s.electors[a.who])) else s
  }

  function Exec(s: State, run: seq<Action>): State
    decreases |run|
  {
    if run == [] then s else Exec(Next(s, run[0]), run[1..])
  }

  lemma {:induction false} ExecConcat(s: State, a: seq<Action>, b: seq<Action>)
    ensures Exec(s, a + b) == Exec(Exec(s, a), b)
    decreases |a|
  {
    if a == [] {
      assert a + b == b;
    } else {
      ExecConcat(Next(s, a[0]), a[1..], b);
      assert (a + b)[1..] == a[1..] + b;
    }
  }

  /** No elector has started; the item is absent, or left over from somebody else. */
  predicate Init(s: State) {
    && "" !in s.electors
    && (s.stored.Some? ==> s.stored.value.owner !in s.electors)
    && forall o :: o in s.electors ==>
         var l := s.electors[o];
         l.lease > 0 && !l.leader && l.heldVersion == 0 && l.phase.NotStarted? && l.pc.Idle? &&
         l.lastNow.None? && l.acked.None? && !l.deleteSent
  }

  /** The lease register a state represents, in whole seconds. */
  function Abs(s: State): Register {
    if s.stored.None? then Free else Held(s.stored.value.owner, s.stored.value.leaseUntil)
  }
}
