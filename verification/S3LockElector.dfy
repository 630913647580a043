/** The s3lock `Elector` object, whose methods update `leader` and `heldETag` and
    call the shared backend. Every method is proved to be a run of the transition
    system, whatever the other electors, the clocks and the network do between its
    steps; the guarantees of S3LockTheorems therefore hold of the objects. */
module S3LockElector {
  import opened Common
  import opened Electors
  import opened LeaseRegister
  import opened S3LockProtocol
  import opened S3LockSafety
  import opened S3LockTheorems
  import opened S3LockTakeover

  /** Steps that may happen while `me` is inside a method of its own: anything but
      the steps of `me`'s own code. Resign may cancel the loop from outside. */
  predicate Foreign(me: string, a: Action) {
    a.Deliver? || a.Advance? || a.Cancel? || a.who != me
  }

  predicate AllForeign(me: string, env: seq<Action>) {
    forall i :: 0 <= i < |env| ==> Foreign(me, env[i])
  }

  /** What foreign steps can do to an elector: move its clock, answer its call,
      cancel its loop. */
  predicate Undisturbed(l: Local, l': Local) {
    && l'.lease == l.lease && l'.leader == l.leader && l'.heldETag == l.heldETag
    && l'.lastNow == l.lastNow && l'.acked == l.acked && l.clock <= l'.clock
    && (l'.phase == l.phase || (l.phase.Running? && l'.phase.Cancelled?))
    && (l'.pc == l.pc || (l.pc.Calling? && l'.pc.Calling? && l'.pc.req == l.pc.req && l'.pc.now == l.pc.now))
  }

  lemma ForeignStep(s: State, a: Action, me: string)
    requires me in s.electors && Foreign(me, a)
    ensures me in Next(s, a).electors && Undisturbed(s.electors[me], Next(s, a).electors[me])
  {
  }

  lemma {:induction false} ForeignRun(s: State, env: seq<Action>, me: string)
    requires me in s.electors && AllForeign(me, env)
    ensures me in Exec(s, env).electors && Undisturbed(s.electors[me], Exec(s, env).electors[me])
    decreases |env|
  {
    if env != [] {
      ForeignStep(s, env[0], me);
      ForeignRun(Next(s, env[0]), env[1..], me);
    }
  }

  predicate Answers(req: Request, r: Reply) {
    match req
    case Put(_, _, _, _) => r.Written? || r.PreconditionFailed?
    case Get(_) => r.Found? || r.NoSuchKey?
    case Delete(_, _) => r.Deleted? || r.PreconditionFailed?
  }

  /** The bucket and everything in flight around it. */
  class Backend {
    var st: State
    ghost const start: State
    ghost var log: seq<Action>

    ghost predicate Valid()
      reads this
    {
      Init(start) && st == Exec(start, log)
    }

    constructor (init: State)
      requires Init(init)
      ensures Valid() && st == init && log == []
    {
      st := init;
      start := init;
      log := [];
    }

    method Do(a: Action)
      requires Valid()
      modifies this
      ensures Valid() && st == Next(old(st), a) && log == old(log) + [a]
    {
      ExecConcat(start, log, [a]);
      st := Next(st, a);
      log := log + [a];
      assert Exec(old(st), [a]) == Exec(Next(old(st), a), [a][1..]);
    }

    /** The rest of the world moves. */
    method Interleave(env: seq<Action>, me: string)
      requires Valid() && me in st.electors && AllForeign(me, env)
      modifies this
      ensures Valid() && st == Exec(old(st), env) && log == old(log) + env
      ensures me in st.electors && Undisturbed(old(st.electors[me]), st.electors[me])
    {
      ForeignRun(st, env, me);
      ExecConcat(start, log, env);
      st := Exec(st, env);
      log := log + env;
    }

    /** One backend call of `me`: the world moves, then the caller resumes with the
        backend's answer, or with a transport error. */
    method Call(me: string, turn: Turn<Action>) returns (r: Option<Reply>)
      requires Valid() && me in st.electors && st.electors[me].pc.Calling? && AllForeign(me, turn.env)
      modifies this
      ensures Valid() && log == old(log) + turn.env + [Answer(me, r.None?)]
      ensures var s := Exec(old(st), turn.env);
        && me in s.electors && Undisturbed(old(st.electors[me]), s.electors[me])
        && st == Next(s, Answer(me, r.None?))
        && r == (if turn.lost then None else s.electors[me].pc.reply)
        && (r.Some? ==> Answers(s.electors[me].pc.req, r.value))
        && s == Exec(start, old(log) + turn.env)
    {
      Interleave(turn.env, me);
      InitInv(start);
      ExecInv(start, log);
      assert LocalOk(st, me, st.electors[me]);
      r := if turn.lost then None else st.electors[me].pc.reply;
      Do(Answer(me, r.None?));
    }
  }

  datatype TickTurns = TickTurns(
    create: Turn<Action>,
    inspect: Turn<Action>,
    replace: Turn<Action>,
    settle: seq<Action>)

  predicate TurnsOk(me: string, t: TickTurns) {
    AllForeign(me, t.create.env) && AllForeign(me, t.inspect.env) && AllForeign(me, t.replace.env) &&
    AllForeign(me, t.settle)
  }

  /** The log of a Resign that deletes, when it has stopped the loop after `log`;
      `failed` says whether the answer to the delete was lost. */
  function ReleaseLog(log: seq<Action>, me: string, del: Turn<Action>, settle: seq<Action>, failed: bool): seq<Action> {
    log + [ResignCheck(me)] + del.env + [Answer(me, failed)] + settle + [Update(me)] + [Update(me)]
  }

  datatype Options = Options(bucket: string, key: string, owner: string, lease: int)

  datatype Error = BucketRequired | KeyRequired | OwnerRequired | LeaseNotPositive | Transport

  /** May `me`, whose tick started at `now`, write over a document it has read? */
  predicate Contestable(d: Doc, me: string, now: int) {
    d.owner == me || d.leaseUntil <= now
  }

  /** After `log`, `me` waits for the answer to `req` in a tick that started at `now`, and
      hears `r`: what the backend has answered, unless that is lost. */
  predicate Hears(start: State, log: seq<Action>, me: string, req: Request, now: int, lost: bool, r: Option<Reply>) {
    var s := Exec(start, log);
    && me in s.electors && s.electors[me].pc.Calling?
    && s.electors[me].pc.req == req && s.electors[me].pc.now == now
    && r == (if lost then None else s.electors[me].pc.reply)
  }

  /** After `log`, `me` gets no answer. */
  predicate Unheard(start: State, log: seq<Action>, me: string, lost: bool) {
    var s := Exec(start, log);
    lost || (me in s.electors && s.electors[me].pc.Calling? && s.electors[me].pc.reply.None?)
  }

  /** The delete of Resign is answered at once, and nobody else moves. */
  predicate PromptDelete(me: string, etag: string, del: Turn<Action>, settle: seq<Action>) {
    && |del.env| == 1 && del.env[0].Deliver? && !del.lost && settle == []
    && del.env[0].req == Delete(me, etag) && del.env[0].report
  }

  /** The object without the version `etag` names. */
  function WithoutVersion(stored: Option<Object>, etag: string): Option<Object> {
    if stored.Some? && stored.value.etag == etag then None else stored
  }

  lemma DeleteAnswered(s: State, me: string, etag: string, del: Turn<Action>)
    requires me in s.electors && s.electors[me].pc.Calling? && s.electors[me].pc.req == Delete(me, etag)
    requires Delete(me, etag) in s.sent && PromptDelete(me, etag, del, [])
    ensures var s' := Exec(s, del.env);
      && me in s'.electors && s'.electors[me].pc.Calling? && s'.electors[me].pc.reply.Some?
      && Next(s', Answer(me, false)).stored == WithoutVersion(s.stored, etag)
  {
    assert del.env == [del.env[0]];
    ExecOne(s, del.env[0]);
  }

  /** What a tick that found the object hears from its read and its second put. */
  datatype Seen = Seen(look: Option<Reply>, replace: Option<Reply>)

  /** The read answered with a document to write over. */
  predicate Wins(me: string, now: int, look: Option<Reply>) {
    look.Some? && look.value.Found? && Contestable(ParseDoc(look.value.body), me, now)
  }

  /** No answer the tick needed was lost. */
  predicate Decided(me: string, now: int, seen: Seen) {
    seen.look.Some? && (Wins(me, now, seen.look) ==> seen.replace.Some?)
  }

  /** The logs when the answers to the calls of a tick are due; `log` ends where the
      first of them starts. */
  function CreateDue(log: seq<Action>, me: string, t: TickTurns): seq<Action> {
    log + [BeginTick(me)] + t.create.env
  }

  function ReplaceDue(log: seq<Action>, me: string, t: TickTurns): seq<Action> {
    log + t.inspect.env + [Answer(me, false)] + t.replace.env
  }

  /** What the tick hears after `log`, where its create has failed: the second put is
      made exactly for a document to write over, under the ETag just read. */
  predicate HearsBoth(start: State, log: seq<Action>, me: string, now: int, lease: int, t: TickTurns, seen: Seen) {
    && Hears(start, log + t.inspect.env, me, Get(me), now, t.inspect.lost, seen.look)
    && (if Wins(me, now, seen.look) then
          Hears(start, ReplaceDue(log, me, t), me, Put(me, now, lease, IfMatch(seen.look.value.etag)), now,
                t.replace.lost, seen.replace)
        else seen.replace.None?)
  }

  /** The flag is raised, or lowered, by assignments of the tick's own. */
  function Raised(log: seq<Action>, me: string, settle: seq<Action>): seq<Action> {
    log + [Update(me)] + settle + [Update(me)]
  }

  function Lowered(log: seq<Action>, me: string, settle: seq<Action>): seq<Action> {
    log + settle + [Update(me)]
  }

  /** The log of the rest of a tick that has found the object. */
  function ContestLog(log: seq<Action>, me: string, now: int, t: TickTurns, seen: Seen): seq<Action> {
    var looked := log + t.inspect.env + [Answer(me, seen.look.None?)];
    if seen.look.None? then looked
    else if !Wins(me, now, seen.look) then Lowered(looked, me, t.settle)
    else ReplaceLog(looked, me, t, seen.replace)
  }

  function ReplaceLog(log: seq<Action>, me: string, t: TickTurns, r: Option<Reply>): seq<Action> {
    var put := log + t.replace.env + [Answer(me, r.None?)];
    if r.None? then put else if r.value.Written? then Raised(put, me, t.settle) else Lowered(put, me, t.settle)
  }

  /** The log of a tick. */
  function TickLog(log: seq<Action>, me: string, now: int, t: TickTurns, created: Option<Reply>, seen: Seen)
    : seq<Action>
  {
    var put := CreateDue(log, me, t) + [Answer(me, created.None?)];
    if created.None? then put
    else if created.value.Written? then Raised(put, me, t.settle)
    else ContestLog(put, me, now, t, seen)
  }

  /** How many ticks `me` has begun. */
  function Begun(log: seq<Action>, me: string): nat {
    if log == [] then 0
    else Begun(log[..|log| - 1], me) + if log[|log| - 1] == BeginTick(me) then 1 else 0
  }

  lemma {:induction false} BegunConcat(a: seq<Action>, b: seq<Action>, me: string)
    ensures Begun(a + b, me) == Begun(a, me) + Begun(b, me)
    decreases |b|
  {
    if b == [] {
      assert a + b == a;
    } else {
      assert (a + b)[..|a + b| - 1] == a + b[..|b| - 1];
      BegunConcat(a, b[..|b| - 1], me);
    }
  }

  lemma BegunOne(a: seq<Action>, b: Action, me: string)
    ensures Begun(a + [b], me) == Begun(a, me) + if b == BeginTick(me) then 1 else 0
  {
    assert (a + [b])[..|a|] == a;
  }

  lemma {:induction false} ForeignBegun(a: seq<Action>, env: seq<Action>, me: string)
    requires AllForeign(me, env)
    ensures Begun(a + env, me) == Begun(a, me)
    decreases |env|
  {
    if env == [] {
      assert a + env == a;
    } else {
      var front := env[..|env| - 1];
      assert a + env == (a + front) + [env[|env| - 1]];
      assert Foreign(me, env[|env| - 1]);
      assert forall i :: 0 <= i < |front| ==> front[i] == env[i];
      ForeignBegun(a, front, me);
      BegunOne(a + front, env[|env| - 1], me);
    }
  }

  lemma FlagBegun(log: seq<Action>, me: string, settle: seq<Action>)
    requires AllForeign(me, settle)
    ensures Begun(Raised(log, me, settle), me) == Begun(log, me)
    ensures Begun(Lowered(log, me, settle), me) == Begun(log, me)
  {
    BegunOne(log, Update(me), me);
    ForeignBegun(log + [Update(me)], settle, me);
    BegunOne(log + [Update(me)] + settle, Update(me), me);
    ForeignBegun(log, settle, me);
    BegunOne(log + settle, Update(me), me);
  }

  lemma ContestBegun(log: seq<Action>, me: string, now: int, t: TickTurns, seen: Seen)
    requires TurnsOk(me, t)
    ensures Begun(ContestLog(log, me, now, t, seen), me) == Begun(log, me)
  {
    var looked := log + t.inspect.env + [Answer(me, seen.look.None?)];
    ForeignBegun(log, t.inspect.env, me);
    BegunOne(log + t.inspect.env, Answer(me, seen.look.None?), me);
    FlagBegun(looked, me, t.settle);
    ForeignBegun(looked, t.replace.env, me);
    BegunOne(looked + t.replace.env, Answer(me, seen.replace.None?), me);
    FlagBegun(looked + t.replace.env + [Answer(me, seen.replace.None?)], me, t.settle);
  }

  lemma TickExtends(log: seq<Action>, me: string, now: int, t: TickTurns, created: Option<Reply>, seen: Seen)
    ensures log < TickLog(log, me, now, t, created, seen)
  {
    var put := CreateDue(log, me, t) + [Answer(me, created.None?)];
    assert log < log + [BeginTick(me)] <= CreateDue(log, me, t) <= put;
    if created.Some? {
      if created.value.Written? { FlagExtends(put, me, t.settle); } else { ContestExtends(put, me, now, t, seen); }
    }
  }

  lemma FlagExtends(log: seq<Action>, me: string, settle: seq<Action>)
    ensures log <= Raised(log, me, settle) && log <= Lowered(log, me, settle)
  {
    assert log <= log + [Update(me)] <= log + [Update(me)] + settle;
    assert log <= log + settle;
  }

  lemma ContestExtends(log: seq<Action>, me: string, now: int, t: TickTurns, seen: Seen)
    ensures log <= ContestLog(log, me, now, t, seen)
  {
    var looked := log + t.inspect.env + [Answer(me, seen.look.None?)];
    var put := looked + t.replace.env + [Answer(me, seen.replace.None?)];
    assert log <= log + t.inspect.env <= looked <= looked + t.replace.env <= put;
    FlagExtends(looked, me, t.settle);
    FlagExtends(put, me, t.settle);
  }

  /** A tick begins once. */
  lemma TickBegun(log: seq<Action>, me: string, now: int, t: TickTurns, created: Option<Reply>, seen: Seen)
    requires TurnsOk(me, t)
    ensures Begun(TickLog(log, me, now, t, created, seen), me) == Begun(log, me) + 1
  {
    BegunOne(log, BeginTick(me), me);
    ForeignBegun(log + [BeginTick(me)], t.create.env, me);
    var put := CreateDue(log, me, t) + [Answer(me, created.None?)];
    BegunOne(CreateDue(log, me, t), Answer(me, created.None?), me);
    FlagBegun(put, me, t.settle);
    ContestBegun(put, me, now, t, seen);
  }

  /** The calls of the tick are answered at once, and nobody else moves; a version it
      writes gets a new ETag. */
  predicate Prompt(s: State, me: string, t: TickTurns)
    requires me in s.electors
  {
    var l := s.electors[me];
    && |t.create.env| == 1 && t.create.env[0].Deliver? && t.settle == []
    && var tag := t.create.env[0].tag;
    && tag != "" && tag !in s.bodies
    && t.create == Turn([Deliver(Put(me, l.clock, l.lease, IfNoneMatch), tag, true)], false)
    && t.inspect == Turn([Deliver(Get(me), tag, true)], false)
    && (s.stored.Some? ==>
          t.replace == Turn([Deliver(Put(me, l.clock, l.lease, IfMatch(s.stored.value.etag)), tag, true)], false))
  }

  /** A call that is answered at once is heard. */
  lemma HeardAtOnce(start: State, log: seq<Action>, me: string, req: Request, now: int, tag: string, r: Option<Reply>)
    requires Init(start) && tag != "" && tag !in Exec(start, log).bodies && req.owner == me
    requires var s := Exec(start, log);
      me in s.electors && s.electors[me].pc == Calling(req, now, None) && req in s.sent
    requires Hears(start, log + [Deliver(req, tag, true)], me, req, now, false, r)
    ensures r == Some(Serve(Exec(start, log).stored, req, tag).1)
  {
    InitInv(start);
    ExecInv(start, log);
    Answered(Exec(start, log), me, req, now, tag);
    ExecConcat(start, log, [Deliver(req, tag, true)]);
  }

  lemma Heard(start: State, log: seq<Action>, me: string, t: TickTurns, created: Option<Reply>)
    requires Init(start) && Ready(Exec(start, log), me) && Prompt(Exec(start, log), me, t)
    requires var l := Exec(start, log).electors[me];
      Hears(start, CreateDue(log, me, t), me, Put(me, l.clock, l.lease, IfNoneMatch), l.clock, false, created)
    ensures var s := Exec(start, log);
      created == Some(if s.stored.None? then Written(t.create.env[0].tag) else PreconditionFailed)
  {
    var s, l := Exec(start, log), Exec(start, log).electors[me];
    InitInv(start);
    ExecInv(start, log);
    ExecOne(s, BeginTick(me));
    ExecConcat(start, log, [BeginTick(me)]);
    HeardAtOnce(start, log + [BeginTick(me)], me, Put(me, l.clock, l.lease, IfNoneMatch), l.clock,
                t.create.env[0].tag, created);
  }

  /** The state in which a promptly answered tick has found the object. */
  lemma AfterCreate(start: State, log: seq<Action>, me: string, t: TickTurns) returns (found: seq<Action>)
    requires Init(start) && Ready(Exec(start, log), me) && Prompt(Exec(start, log), me, t)
    requires Exec(start, log).stored.Some?
    ensures found == CreateDue(log, me, t) + [Answer(me, false)]
    ensures found == log + Claim(me, Exec(start, log).electors[me], t.create.env[0].tag)
    ensures var s, s1 := Exec(start, log), Exec(start, found);
      && Inv(s1) && Along(s, s1, me, Calling(Get(me), s.electors[me].clock, None))
      && s1.stored == s.stored && s1.bodies == s.bodies
  {
    InitInv(start);
    ExecInv(start, log);
    var s := Exec(start, log);
    found := CreateDue(log, me, t) + [Answer(me, false)];
    var s1 := Claimed(s, me, t.create.env[0].tag);
    ExecConcat(start, log, Claim(me, s.electors[me], t.create.env[0].tag));
    assert found == log + Claim(me, s.electors[me], t.create.env[0].tag);
  }

  /** What a promptly answered tick hears once it has found the object. */
  lemma HeardBoth(start: State, log: seq<Action>, me: string, t: TickTurns, found: seq<Action>, seen: Seen)
    requires Init(start) && Ready(Exec(start, log), me) && Prompt(Exec(start, log), me, t)
    requires Exec(start, log).stored.Some? && found == CreateDue(log, me, t) + [Answer(me, false)]
    requires var l := Exec(start, log).electors[me]; HearsBoth(start, found, me, l.clock, l.lease, t, seen)
    ensures var s := Exec(start, log);
      && seen.look == Some(Found(s.stored.value.body, s.stored.value.etag))
      && seen.replace == if Takeable(Abs(s), me, s.electors[me].clock) then Some(Written(t.create.env[0].tag)) else None
  {
    var s, tag := Exec(start, log), t.create.env[0].tag;
    var now := s.electors[me].clock;
    var _ := AfterCreate(start, log, me, t);
    var s1 := Exec(start, found);
    HeardAtOnce(start, found, me, Get(me), now, tag, seen.look);
    if Takeable(Abs(s), me, now) {
      var s2 := Inspected(s1, me, now, tag);
      ExecConcat(start, found, Serving(me, Get(me), tag));
      assert ReplaceDue(found, me, t) == (found + Serving(me, Get(me), tag)) + t.replace.env;
      HeardAtOnce(start, found + Serving(me, Get(me), tag), me,
                  Put(me, now, s.electors[me].lease, IfMatch(s.stored.value.etag)), now, tag, seen.replace);
    }
  }

  /** A promptly answered tick is the fault-free tick of the transition system. */
  lemma PromptTick(start: State, log: seq<Action>, me: string, t: TickTurns, created: Option<Reply>, seen: Seen)
    requires Init(start) && Ready(Exec(start, log), me) && Prompt(Exec(start, log), me, t)
    requires var l := Exec(start, log).electors[me];
      && Hears(start, CreateDue(log, me, t), me, Put(me, l.clock, l.lease, IfNoneMatch), l.clock, false, created)
      && (if created == Some(PreconditionFailed) then
            HearsBoth(start, CreateDue(log, me, t) + [Answer(me, false)], me, l.clock, l.lease, t, seen)
          else seen == Seen(None, None))
    ensures var s := Exec(start, log);
      TickLog(log, me, s.electors[me].clock, t, created, seen) == log + FaultFreeTick(s, me, t.create.env[0].tag)
    ensures created.Some? && (created.value.Written? || Decided(me, Exec(start, log).electors[me].clock, seen))
  {
    var s, tag := Exec(start, log), t.create.env[0].tag;
    var l := s.electors[me];
    Heard(start, log, me, t, created);
    if s.stored.None? {
      assert TickLog(log, me, l.clock, t, created, seen) == log + (Claim(me, l, tag) + Settle(me));
    } else {
      var found := AfterCreate(start, log, me, t);
      HeardBoth(start, log, me, t, found, seen);
      PromptContest(found, me, s, t, seen);
      assert found + FoundTick(s, me, tag) == log + (Claim(me, l, tag) + FoundTick(s, me, tag));
    }
  }

  lemma PromptOutcome(start: State, log: seq<Action>, me: string, t: TickTurns, created: Option<Reply>, seen: Seen)
    requires Init(start) && Ready(Exec(start, log), me) && Prompt(Exec(start, log), me, t)
    requires var l := Exec(start, log).electors[me];
      && Hears(start, CreateDue(log, me, t), me, Put(me, l.clock, l.lease, IfNoneMatch), l.clock, false, created)
      && (if created == Some(PreconditionFailed) then
            HearsBoth(start, CreateDue(log, me, t) + [Answer(me, false)], me, l.clock, l.lease, t, seen)
          else seen == Seen(None, None))
    ensures var s := Exec(start, log);
            var l := s.electors[me];
            var s' := Exec(start, TickLog(log, me, l.clock, t, created, seen));
      && me in s'.electors && s'.electors[me].leader == Takeable(Abs(s), me, l.clock)
      && Abs(s') == if Takeable(Abs(s), me, l.clock) then Held(me, l.clock + 3 * l.lease) else Abs(s)
    ensures created.Some? && (created.value.Written? || Decided(me, Exec(start, log).electors[me].clock, seen))
  {
    PromptTick(start, log, me, t, created, seen);
    FaultFreeAfter(start, log, me, t.create.env[0].tag);
  }

  lemma FaultFreeAfter(start: State, log: seq<Action>, me: string, tag: string)
    requires Init(start) && Ready(Exec(start, log), me) && tag != "" && tag !in Exec(start, log).bodies
    ensures var s := Exec(start, log);
      TickDone(s, Exec(start, log + FaultFreeTick(s, me, tag)), me, tag)
  {
    var s := Exec(start, log);
    InitInv(start);
    ExecInv(start, log);
    FaultFreeOutcome(s, me, tag);
    ExecConcat(start, log, FaultFreeTick(s, me, tag));
  }

  /** The rest of a fault-free tick that finds the object. */
  function FoundTick(s: State, me: string, tag: string): seq<Action>
    requires me in s.electors && s.stored.Some?
  {
    if Takeable(Abs(s), me, s.electors[me].clock) then
      Serving(me, Get(me), tag) + (Replacing(me, s.electors[me], s.stored.value.etag, tag) + Settle(me))
    else Serving(me, Get(me), tag) + [Update(me)]
  }

  lemma PromptContest(found: seq<Action>, me: string, s: State, t: TickTurns, seen: Seen)
    requires me in s.electors && s.stored.Some? && Prompt(s, me, t)
    requires seen.look == Some(Found(s.stored.value.body, s.stored.value.etag))
    requires seen.replace ==
             if Takeable(Abs(s), me, s.electors[me].clock) then Some(Written(t.create.env[0].tag)) else None
    ensures ContestLog(found, me, s.electors[me].clock, t, seen) == found + FoundTick(s, me, t.create.env[0].tag)
  {
    var tag, l := t.create.env[0].tag, s.electors[me];
    var looked := found + t.inspect.env + [Answer(me, false)];
    assert looked == found + Serving(me, Get(me), tag);
    if Takeable(Abs(s), me, l.clock) {
      var replacing := Replacing(me, l, s.stored.value.etag, tag);
      assert looked + t.replace.env + [Answer(me, false)] == looked + replacing;
      assert Raised(looked + replacing, me, []) == looked + (replacing + Settle(me));
      assert looked + (replacing + Settle(me)) == found + (Serving(me, Get(me), tag) + (replacing + Settle(me)));
    } else {
      assert Lowered(looked, me, []) == looked + [Update(me)];
      assert looked + [Update(me)] == found + (Serving(me, Get(me), tag) + [Update(me)]);
    }
  }

  /** Where a tick goes after the answer to its read, or its loss. */
  function AfterLook(me: string, now: int, lease: int, r: Option<Reply>): Pc {
    if r.None? then Idle
    else if r.value.Found? && Contestable(ParseDoc(r.value.body), me, now) then
      Calling(Put(me, now, lease, IfMatch(r.value.etag)), now, None)
    else Storing(false)
  }

  lemma CreateAnswered(s: State, me: string, req: Request, r: Option<Reply>)
    requires me in s.electors && s.electors[me].pc.Calling? && s.electors[me].pc.req == req
    requires req.Put? && req.cond.IfNoneMatch?
    requires r.Some? ==> (r.value.Written? || r.value.PreconditionFailed?) && s.electors[me].pc.reply == r
    ensures var s' := Next(s, Answer(me, r.None?));
            var now := s.electors[me].pc.now;
      me in s'.electors &&
      s'.electors[me] == s.electors[me].(pc := if r.None? then Idle
                                               else if r.value.Written? then Acked(r.value.etag, now)
                                               else Calling(Get(me), now, None))
  {
  }

  lemma SecondPutAnswered(s: State, me: string, req: Request, r: Option<Reply>)
    requires me in s.electors && s.electors[me].pc.Calling? && s.electors[me].pc.req == req
    requires req.Put? && req.cond.IfMatch?
    requires r.Some? ==> (r.value.Written? || r.value.PreconditionFailed?) && s.electors[me].pc.reply == r
    ensures var s' := Next(s, Answer(me, r.None?));
      me in s'.electors &&
      s'.electors[me] == s.electors[me].(pc := if r.None? then Idle
                                               else if r.value.Written? then Acked(r.value.etag, s.electors[me].pc.now)
                                               else Storing(false))
  {
  }

  lemma LookAnswered(s: State, me: string, now: int, r: Option<Reply>)
    requires me in s.electors && s.electors[me].pc.Calling?
    requires s.electors[me].pc.req.Get? && s.electors[me].pc.now == now
    requires r.Some? ==> (r.value.Found? || r.value.NoSuchKey?) && s.electors[me].pc.reply == r
    ensures var s' := Next(s, Answer(me, r.None?));
            me in s'.electors &&
            s'.electors[me] == s.electors[me].(pc := AfterLook(me, now, s.electors[me].lease, r))
  {
  }

  class Elector {
    const be: Backend
    const opts: Options
    var leader: bool
    var heldETag: string
    var started: bool

    function Me(): string { opts.owner }

    /** The elector's local part of the shared state. */
    function Mine(): Local
      reads this, be
      requires Me() in be.st.electors
    {
      be.st.electors[Me()]
    }

    ghost predicate Valid()
      reads this, be
    {
      && be.Valid()
      && Me() in be.st.electors
      && Mine().leader == leader && Mine().heldETag == heldETag && Mine().lease == opts.lease
      && (started <==> !Mine().phase.NotStarted?)
    }

    /** The state after the first `n` steps. */
    ghost function At(n: nat): State
      reads this, be
      requires n <= |be.log|
    {
      Exec(be.start, be.log[..n])
    }

    /** Was the flag up then? */
    ghost predicate LeaderAt(n: nat)
      reads this, be
      requires n <= |be.log|
    {
      Me() in At(n).electors && At(n).electors[Me()].leader
    }

    /** No method of this elector is running. */
    ghost predicate AtRest()
      reads this, be
      requires Me() in be.st.electors
    {
      Mine().pc.Idle?
    }

    constructor (be: Backend, opts: Options)
      requires be.Valid() && opts.owner in be.st.electors
      requires be.st.electors[opts.owner].phase.NotStarted? && be.st.electors[opts.owner].lease == opts.lease
      ensures Valid() && !started && AtRest() && this.be == be && this.opts == opts
    {
      this.be := be;
      this.opts := opts;
      leader := false;
      heldETag := "";
      started := false;
      InitInv(be.start);
      ExecInv(be.start, be.log);
      assert LocalOk(be.st, opts.owner, be.st.electors[opts.owner]);
    }

    method Validate() returns (err: Option<Error>)
      ensures err.None? <==> opts.bucket != "" && opts.key != "" && opts.owner != "" && opts.lease > 0
    {
      if opts.bucket == "" { return Some(BucketRequired); }
      if opts.key == "" { return Some(KeyRequired); }
      if opts.owner == "" { return Some(OwnerRequired); }
      if opts.lease <= 0 { return Some(LeaseNotPositive); }
      return None;
    }

    /** `heldETag = etag; leader.Store(true)` after an acknowledged put. */
    method Acknowledge(etag: string, now: int, settle: seq<Action>)
      requires Valid() && Mine().pc == Acked(etag, now) && AllForeign(Me(), settle)
      requires Mine().phase.Running? || Mine().phase.Cancelled?
      modifies this`heldETag, this`leader, be
      ensures Valid() && AtRest() && be.log == Raised(old(be.log), Me(), settle)
      ensures leader && heldETag == etag && Mine().lastNow == old(Mine().lastNow)
      ensures Mine().acked == Some(Ack(etag, now + 3 * opts.lease))
      ensures StaysInLoop(old(Mine().phase), Mine().phase)
    {
      heldETag := etag;
      be.Do(Update(Me()));
      be.Interleave(settle, Me());
      leader := true;
      be.Do(Update(Me()));
    }

    /** `leader.Store(false)`. */
    method StepDown(settle: seq<Action>)
      requires Valid() && Mine().pc == Storing(false) && AllForeign(Me(), settle)
      requires Mine().phase.Running? || Mine().phase.Cancelled?
      modifies this`leader, be
      ensures Valid() && AtRest() && be.log == Lowered(old(be.log), Me(), settle)
      ensures !leader && Mine().lastNow == old(Mine().lastNow) && Mine().acked == old(Mine().acked)
      ensures StaysInLoop(old(Mine().phase), Mine().phase)
    {
      be.Interleave(settle, Me());
      leader := false;
      be.Do(Update(Me()));
    }

    /** Steps (2) to (4) of a tick: the object exists, so read it and renew what we
        hold, steal what expired, or step down. */
    method Contest(now: int, t: TickTurns) returns (err: Option<Error>, ghost seen: Seen)
      requires Valid() && TurnsOk(Me(), t)
      requires Mine().pc == Calling(Get(Me()), now, None)
      requires Mine().phase.Running? || Mine().phase.Cancelled?
      modifies this`heldETag, this`leader, be
      ensures Valid() && AtRest() && be.log == ContestLog(old(be.log), Me(), now, t, seen)
      ensures StaysInLoop(old(Mine().phase), Mine().phase) && Mine().lastNow == old(Mine().lastNow)
      ensures err.Some? ==> leader == old(leader) && heldETag == old(heldETag) && Mine().acked == old(Mine().acked)
      ensures err.None? && leader ==> Mine().acked == Some(Ack(heldETag, now + 3 * opts.lease))
      ensures err.None? && !leader ==> heldETag == old(heldETag) && Mine().acked == old(Mine().acked)
      ensures HearsBoth(be.start, old(be.log), Me(), now, opts.lease, t, seen)
      ensures err.None? <==> Decided(Me(), now, seen)
      ensures err.None? ==> (leader <==> seen.replace.Some? && seen.replace.value.Written?)
    {
      var got := Look(now, t.inspect);
      seen := Seen(got, None);
      if got.None? { return Some(Transport), seen; }
      if got.value.NoSuchKey? {
        StepDown(t.settle);
        return None, seen;
      }
      var doc := ParseDoc(got.value.body);
      if Contestable(doc, Me(), now) {
        ghost var replaced;
        err, replaced := Replace(now, got.value.etag, t);
        seen := Seen(got, replaced);
      } else {
        StepDown(t.settle);
        err := None;
      }
    }

    /** The read of step (2), and what it decides. */
    method Look(now: int, turn: Turn<Action>) returns (got: Option<Reply>)
      requires Valid() && AllForeign(Me(), turn.env) && Mine().pc == Calling(Get(Me()), now, None)
      requires Mine().phase.Running? || Mine().phase.Cancelled?
      modifies be
      ensures Valid() && be.log == old(be.log) + turn.env + [Answer(Me(), got.None?)]
      ensures StaysInLoop(old(Mine().phase), Mine().phase)
      ensures Mine().lastNow == old(Mine().lastNow) && Mine().acked == old(Mine().acked)
      ensures got.Some? ==> got.value.Found? || got.value.NoSuchKey?
      ensures Hears(be.start, old(be.log) + turn.env, Me(), Get(Me()), now, turn.lost, got)
      ensures Mine().pc == AfterLook(Me(), now, opts.lease, got)
    {
      got := be.Call(Me(), turn);
      LookAnswered(Exec(old(be.st), turn.env), Me(), now, got);
    }

    /** The conditional put of step (3). */
    method Replace(now: int, etag: string, t: TickTurns) returns (err: Option<Error>, ghost seen: Option<Reply>)
      requires Valid() && TurnsOk(Me(), t)
      requires Mine().pc == Calling(Put(Me(), now, opts.lease, IfMatch(etag)), now, None)
      requires Mine().phase.Running? || Mine().phase.Cancelled?
      modifies this`heldETag, this`leader, be
      ensures Valid() && AtRest() && be.log == ReplaceLog(old(be.log), Me(), t, seen)
      ensures StaysInLoop(old(Mine().phase), Mine().phase) && Mine().lastNow == old(Mine().lastNow)
      ensures err.Some? ==> leader == old(leader) && heldETag == old(heldETag) && Mine().acked == old(Mine().acked)
      ensures err.None? && leader ==> Mine().acked == Some(Ack(heldETag, now + 3 * opts.lease))
      ensures err.None? && !leader ==> heldETag == old(heldETag) && Mine().acked == old(Mine().acked)
      ensures Hears(be.start, old(be.log) + t.replace.env, Me(), Put(Me(), now, opts.lease, IfMatch(etag)), now,
                    t.replace.lost, seen)
      ensures err.None? <==> seen.Some?
      ensures err.None? ==> (leader <==> seen.value.Written?)
    {
      var put := SecondPut(now, etag, t.replace);
      seen := put;
      if put.None? { return Some(Transport), None; }
      if put.value.PreconditionFailed? {
        StepDown(t.settle);
      } else {
        Acknowledge(put.value.etag, now, t.settle);
      }
      err := None;
    }

    method SecondPut(now: int, etag: string, turn: Turn<Action>) returns (out: Option<Reply>)
      requires Valid() && AllForeign(Me(), turn.env)
      requires Mine().pc == Calling(Put(Me(), now, opts.lease, IfMatch(etag)), now, None)
      requires Mine().phase.Running? || Mine().phase.Cancelled?
      modifies be
      ensures Valid() && be.log == old(be.log) + turn.env + [Answer(Me(), out.None?)]
      ensures StaysInLoop(old(Mine().phase), Mine().phase)
      ensures Mine().lastNow == old(Mine().lastNow) && Mine().acked == old(Mine().acked)
      ensures out.Some? ==> out.value.Written? || out.value.PreconditionFailed?
      ensures Hears(be.start, old(be.log) + turn.env, Me(), Put(Me(), now, opts.lease, IfMatch(etag)), now,
                    turn.lost, out)
      ensures Mine().pc == if out.None? then Idle
                           else if out.value.Written? then Acked(out.value.etag, now) else Storing(false)
    {
      ghost var req := Put(Me(), now, opts.lease, IfMatch(etag));
      out := be.Call(Me(), turn);
      SecondPutAnswered(Exec(old(be.st), turn.env), Me(), req, out);
    }

    /** One renewal attempt. A transport error keeps flag and ETag; otherwise the
        flag afterwards says whether this very tick committed a lease ending
        3 * Lease after the clock reading it started from. Of a tick that found the
        object, `seen` holds the answers: the flag comes down for an object gone, a live
        foreign document, and a lost race. */
    method Tick(t: TickTurns) returns (err: Option<Error>, ghost created: Option<Reply>, ghost seen: Seen)
      requires Valid() && AtRest() && TurnsOk(Me(), t)
      requires Mine().phase.Running? || Mine().phase.Cancelled?
      modifies this`heldETag, this`leader, be
      ensures Valid() && AtRest()
      ensures be.log == TickLog(old(be.log), Me(), old(Mine().clock), t, created, seen)
      ensures StaysInLoop(old(Mine().phase), Mine().phase)
      ensures Mine().lastNow == Some(old(Mine().clock))
      ensures err.Some? ==> leader == old(leader) && heldETag == old(heldETag) && Mine().acked == old(Mine().acked)
      ensures err.None? && leader ==>
                Mine().acked == Some(Ack(heldETag, old(Mine().clock) + 3 * opts.lease))
      ensures err.None? && !leader ==> heldETag == old(heldETag) && Mine().acked == old(Mine().acked)
      ensures var now := old(Mine().clock);
        && Hears(be.start, CreateDue(old(be.log), Me(), t), Me(), Put(Me(), now, opts.lease, IfNoneMatch), now,
                 t.create.lost, created)
        && (if created == Some(PreconditionFailed) then
              HearsBoth(be.start, CreateDue(old(be.log), Me(), t) + [Answer(Me(), false)], Me(), now, opts.lease,
                        t, seen)
            else seen == Seen(None, None))
        && (err.None? <==> created.Some? && (created.value.Written? || Decided(Me(), now, seen)))
        && (err.None? ==> (leader <==> created.value.Written? || (seen.replace.Some? && seen.replace.value.Written?)))
      ensures old(Mine().phase.Running? && Prompt(be.st, Me(), t)) ==>
                var now := old(Mine().clock);
                && err.None? && leader == Takeable(Abs(old(be.st)), Me(), now)
                && Abs(be.st) == if leader then Held(Me(), now + 3 * opts.lease) else Abs(old(be.st))
    {
      var now := Mine().clock;
      // (1) First-claim path.
      var out := Create(now, t.create);
      created, seen := out, Seen(None, None);
      if out.None? {
        err := Some(Transport);
      } else if out.value.Written? {
        Acknowledge(out.value.etag, now, t.settle);
        err := None;
      } else {
        err, seen := Contest(now, t);
      }
      if old(Mine().phase.Running? && Prompt(be.st, Me(), t)) {
        PromptOutcome(be.start, old(be.log), Me(), t, created, seen);
      }
    }

    /** The create-if-absent put a tick starts with. */
    method Create(now: int, turn: Turn<Action>) returns (out: Option<Reply>)
      requires Valid() && AtRest() && AllForeign(Me(), turn.env) && now == Mine().clock
      requires Mine().phase.Running? || Mine().phase.Cancelled?
      modifies be
      ensures Valid() && be.log == old(be.log) + [BeginTick(Me())] + turn.env + [Answer(Me(), out.None?)]
      ensures StaysInLoop(old(Mine().phase), Mine().phase)
      ensures Mine().lastNow == Some(now) && Mine().acked == old(Mine().acked)
      ensures out.Some? ==> out.value.Written? || out.value.PreconditionFailed?
      ensures Hears(be.start, old(be.log) + [BeginTick(Me())] + turn.env, Me(),
                    Put(Me(), now, opts.lease, IfNoneMatch), now, turn.lost, out)
      ensures Mine().pc == if out.None? then Idle
                           else if out.value.Written? then Acked(out.value.etag, now)
                           else Calling(Get(Me()), now, None)
    {
      be.Do(BeginTick(Me()));
      ghost var req, began := Put(Me(), now, opts.lease, IfNoneMatch), be.st;
      assert Mine().pc.req == req;
      out := be.Call(Me(), turn);
      CreateAnswered(Exec(began, turn.env), Me(), req, out);
    }

    /** The renewal loop: one tick per turn. Once the loop is cancelled it may stop
        before any further tick. */
    method Loop(turns: seq<TickTurns>, stopEarly: bool) returns (ghost ticks: nat)
      requires Valid() && AtRest() && (forall i :: 0 <= i < |turns| ==> TurnsOk(Me(), turns[i]))
      requires Mine().phase.Running? || Mine().phase.Cancelled?
      modifies this`heldETag, this`leader, be
      ensures Valid() && AtRest() && old(be.log) <= be.log
      ensures StaysInLoop(old(Mine().phase), Mine().phase)
      ensures ticks <= |turns| && Begun(be.log, Me()) == Begun(old(be.log), Me()) + ticks
      ensures ticks < |turns| ==> stopEarly && Mine().phase.Cancelled?
    {
      var i := 0;
      while i < |turns|
        invariant 0 <= i <= |turns|
        invariant Valid() && AtRest() && old(be.log) <= be.log
        invariant StaysInLoop(old(Mine().phase), Mine().phase)
        invariant Begun(be.log, Me()) == Begun(old(be.log), Me()) + i
      {
        if Mine().phase.Cancelled? && stopEarly { return i; }
        OneTick(turns[i]);
        i := i + 1;
      }
      ticks := i;
    }

    /** `_ = e.tick(ctx)` */
    method OneTick(t: TickTurns)
      requires Valid() && AtRest() && TurnsOk(Me(), t)
      requires Mine().phase.Running? || Mine().phase.Cancelled?
      modifies this`heldETag, this`leader, be
      ensures Valid() && AtRest() && old(be.log) < be.log
      ensures StaysInLoop(old(Mine().phase), Mine().phase)
      ensures Mine().lastNow == Some(old(Mine().clock))
      ensures Begun(be.log, Me()) == Begun(old(be.log), Me()) + 1
    {
      ghost var log, now := be.log, Mine().clock;
      var _, created, seen := Tick(t);
      TickExtends(log, Me(), now, t, created, seen);
      TickBegun(log, Me(), now, t, created, seen);
    }

    /** Validates the options and, the first time, runs one tick before the loop
        starts. */
    method Start(t: TickTurns) returns (err: Option<Error>)
      requires Valid() && AtRest() && TurnsOk(Me(), t)
      modifies this, be
      ensures Valid() && AtRest()
      ensures err.Some? <==> opts.bucket == "" || opts.key == "" || opts.owner == "" || opts.lease <= 0
      ensures err.Some? || old(started) ==>
                leader == old(leader) && heldETag == old(heldETag) && started == old(started) && be.log == old(be.log)
      ensures err.None? ==> started
      ensures err.None? && !old(started) ==>
                && old(be.log) < be.log && Mine().lastNow == Some(old(Mine().clock))
                && Begun(be.log, Me()) == Begun(old(be.log), Me()) + 1
    {
      err := Validate();
      if err.Some? || started { return; }
      started := true;
      be.Do(Action.Start(Me()));
      BegunOne(old(be.log), Action.Start(Me()), Me());
      OneTick(t);
    }

    /** `cancel` and the wait for the loop to finish: until it sees the cancel it makes
        the ticks `rest`. */
    method StopLoop(rest: seq<TickTurns>)
      requires Valid() && AtRest() && (forall i :: 0 <= i < |rest| ==> TurnsOk(Me(), rest[i]))
      modifies this`heldETag, this`leader, be
      ensures Valid() && AtRest() && old(be.log) <= be.log
      ensures leader ==> heldETag != "" && Mine().phase.Cancelled?
      ensures !started ==> !leader
      ensures started ==> Mine().phase.Cancelled? || Mine().phase.Resigned?
      ensures old(Mine().phase.Resigned?) ==> be.st == old(be.st) && Mine().phase.Resigned?
      ensures Begun(be.log, Me()) == Begun(old(be.log), Me()) +
              if old(Mine().phase.Running? || Mine().phase.Cancelled?) then |rest| else 0
    {
      AtRestLocal();
      if Mine().phase.Running? || Mine().phase.Cancelled? {
        be.Do(Cancel(Me()));
        BegunOne(old(be.log), Cancel(Me()), Me());
        var _ := Loop(rest, false);
      }
      AtRestLocal();
    }

    lemma AtRestLocal()
      requires Valid()
      ensures LocalOk(be.st, Me(), Mine())
    {
      InitInv(be.start);
      ExecInv(be.start, be.log);
      assert LocalOk(be.st, Me(), be.st.electors[Me()]);
    }

    /** Deletes the object with an If-Match on the held ETag; the flag comes down
        before the ETag is cleared, and whatever the answer was. */
    method Release(del: Turn<Action>, settle: seq<Action>) returns (err: Option<Error>)
      requires Valid() && AtRest() && leader && heldETag != "" && Mine().phase.Cancelled?
      requires AllForeign(Me(), del.env) && AllForeign(Me(), settle)
      modifies this`heldETag, this`leader, be
      ensures Valid() && AtRest()
      ensures !leader && heldETag == "" && Mine().phase.Resigned?
      ensures be.log == ReleaseLog(old(be.log), Me(), del, settle, err.Some?)
      ensures err.Some? <==> Unheard(be.start, old(be.log) + [ResignCheck(Me())] + del.env, Me(), del.lost)
      ensures err.Some? ==> err == Some(Transport)
      ensures PromptDelete(Me(), old(heldETag), del, settle) ==>
                err.None? && be.st.stored == WithoutVersion(old(be.st.stored), old(heldETag))
    {
      be.Do(ResignCheck(Me()));
      assert Mine().pc.req == Delete(Me(), heldETag);
      if PromptDelete(Me(), heldETag, del, settle) { DeleteAnswered(be.st, Me(), heldETag, del); }
      var out := be.Call(Me(), del);
      StandAside(settle);
      return if out.None? then Some(Transport) else None;
    }

    /** `leader.Store(false)`, then the held value is cleared. */
    method StandAside(settle: seq<Action>)
      requires Valid() && Mine().pc == Storing(false) && Mine().phase.Deleting? && AllForeign(Me(), settle)
      modifies this`heldETag, this`leader, be
      ensures Valid() && AtRest() && be.log == old(be.log) + settle + [Update(Me())] + [Update(Me())]
      ensures !leader && heldETag == "" && Mine().phase.Resigned?
      ensures settle == [] ==> be.st.stored == old(be.st.stored)
    {
      be.Interleave(settle, Me());
      leader := false;
      be.Do(Update(Me()));
      heldETag := "";
      be.Do(Update(Me()));
    }

    /** Cancels the loop, waits for it to finish, and deletes the object when this
        elector still believes it leads. Once it has returned on a started elector
        the flag is down, for good by S3LockTheorems.ResignIsFinal. */
    method Resign(rest: seq<TickTurns>, del: Turn<Action>, settle: seq<Action>)
      returns (err: Option<Error>, ghost at: nat)
      requires Valid() && AtRest() && (forall i :: 0 <= i < |rest| ==> TurnsOk(Me(), rest[i]))
      requires AllForeign(Me(), del.env) && AllForeign(Me(), settle)
      modifies this`heldETag, this`leader, be
      ensures Valid() && AtRest()
      ensures started ==> !leader && Mine().phase.Resigned?
      ensures !started ==> err.None? && leader == old(leader) && be.log == old(be.log)
      ensures old(started && Mine().phase.Resigned?) ==> err.None? && be.st == old(be.st)
      ensures started ==>
                && |old(be.log)| <= at <= |be.log| && old(be.log) <= be.log[..at]
                && be.log == (if LeaderAt(at) then ReleaseLog(be.log[..at], Me(), del, settle, err.Some?)
                              else be.log[..at] + [ResignCheck(Me())])
                && (err.Some? <==> LeaderAt(at) &&
                                   Unheard(be.start, be.log[..at] + [ResignCheck(Me())] + del.env, Me(), del.lost))
      ensures old(Mine().phase.Running? || Mine().phase.Cancelled?) ==>
                Begun(be.log[..at], Me()) == Begun(old(be.log), Me()) + |rest|
      ensures started && LeaderAt(at) && PromptDelete(Me(), At(at).electors[Me()].heldETag, del, settle) ==>
                be.st.stored == WithoutVersion(At(at).stored, At(at).electors[Me()].heldETag)
    {
      if !started { return None, |be.log|; }
      StopLoop(rest);
      ghost var stopped := be.log;
      at := |stopped|;
      if !leader || heldETag == "" {
        be.Do(ResignCheck(Me()));
        assert be.log[..at] == stopped;
        return None, at;
      }
      err := Release(del, settle);
      assert be.log[..at] == stopped;
    }
  }

  /** Exclusion for the objects: of two electors on one backend whose flags are
      both up with unexpired acknowledged leases outside Resign, both are the same
      owner, and the stored document is its own. */
  lemma ObjectsExclude(e: Elector, f: Elector, d: nat)
    requires e.be == f.be && e.Valid() && f.Valid()
    requires SyncedRun(e.be.start, e.be.log, d)
    requires e.leader && OutsideResign(e.Mine()) && e.Mine().acked.Some? &&
             e.Mine().clock + d < e.Mine().acked.value.leaseUntil
    requires f.leader && OutsideResign(f.Mine()) && f.Mine().acked.Some? &&
             f.Mine().clock + d < f.Mine().acked.value.leaseUntil
    ensures e.Me() == f.Me() && StoredFor(e.be.st, e.Me(), e.Mine().acked.value.leaseUntil)
  {
    Exclusion(e.be.start, e.be.log, d, e.Me(), f.Me());
  }
}
