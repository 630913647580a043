/** The dynamolock `Elector` object, whose methods update `leader` and
    `heldVersion` and call the shared table. As in S3LockElector, every method is
    proved to be a run of the transition system. */
module DynamoLockElector {
  import opened Common
  import opened Electors
  import opened LeaseRegister
  import opened DynamoLockProtocol
  import opened DynamoLockTheorems
  import opened DynamoLockTakeover

  /** Steps that may happen while `me` is inside a method of its own. */
  predicate Foreign(me: string, a: Action) {
    a.Deliver? || a.Advance? || a.Cancel? || a.LateDelete? || a.AdvanceTable? || a.TimeToLive? ||
    a.who != me
  }

  predicate AllForeign(me: string, env: seq<Action>) {
    forall i :: 0 <= i < |env| ==> Foreign(me, env[i])
  }

  /** What foreign steps can do to an elector: move its clock, answer its call,
      cancel its loop. */
  predicate Undisturbed(l: Local, l': Local) {
    && l'.lease == l.lease && l'.leader == l.leader && l'.heldVersion == l.heldVersion
    && l'.lastNow == l.lastNow && l'.acked == l.acked && l.clock <= l'.clock
    && (l'.phase == l.phase || StaysInLoop(l.phase, l'.phase))
    && (l'.pc == l.pc || (l.pc.Calling? && l'.pc.Calling? && l'.pc.req == l.pc.req && l'.pc.now == l.pc.now))
  }

  lemma {:induction false} ForeignRun(s: State, env: seq<Action>, me: string)
    requires me in s.electors && AllForeign(me, env)
    ensures me in Exec(s, env).electors && Undisturbed(s.electors[me], Exec(s, env).electors[me])
    decreases |env|
  {
    if env != [] {
      assert Undisturbed(s.electors[me], Next(s, env[0]).electors[me]);
      ForeignRun(Next(s, env[0]), env[1..], me);
    }
  }

  datatype TickTurns = TickTurns(put: Turn<Action>, inspect: Turn<Action>, settle: seq<Action>)

  predicate TurnsOk(me: string, t: TickTurns) {
    AllForeign(me, t.put.env) && AllForeign(me, t.inspect.env) && AllForeign(me, t.settle)
  }

  /** The table and everything in flight around it. */
  class Table {
    var st: State
    ghost const start: State
    ghost var log: seq<Action>

    ghost predicate Valid()
      reads this
    {
      Init(start) && st == Exec(start, log)
    }

    constructor (init: State)
      requires Init(init)
      ensures Valid() && st == init && log == []
    {
      st := init;
      start := init;
      log := [];
    }

    method Do(a: Action)
      requires Valid()
      modifies this
      ensures Valid() && st == Next(old(st), a) && log == old(log) + [a]
    {
      ExecConcat(start, log, [a]);
      st := Next(st, a);
      log := log + [a];
      assert Exec(old(st), [a]) == Exec(Next(old(st), a), [a][1..]);
    }

    /** The rest of the world moves. */
    method Interleave(env: seq<Action>, me: string)
      requires Valid() && me in st.electors && AllForeign(me, env)
      modifies this
      ensures Valid() && st == Exec(old(st), env) && log == old(log) + env
      ensures me in st.electors && Undisturbed(old(st.electors[me]), st.electors[me])
    {
      ForeignRun(st, env, me);
      ExecConcat(start, log, env);
      st := Exec(st, env);
      log := log + env;
    }

    /** One call of `me`: the world moves, then the caller resumes with the table's
        answer, or with a transport error. */
    method Call(me: string, turn: Turn<Action>) returns (r: Option<Reply>)
      requires Valid() && me in st.electors && st.electors[me].pc.Calling? && AllForeign(me, turn.env)
      modifies this
      ensures Valid() && log == old(log) + turn.env + [Answer(me, r.None?)]
      ensures var s := Exec(old(st), turn.env);
        && me in s.electors && Undisturbed(old(st.electors[me]), s.electors[me])
        && st == Next(s, Answer(me, r.None?))
        && r == (if turn.lost then None else s.electors[me].pc.reply)
        && (r.Some? ==> ReplyOk(s.electors[me].pc.req, r.value))
        && s == Exec(start, old(log) + turn.env)
    {
      Interleave(turn.env, me);
      InitInv(start);
      ExecInv(start, log);
      assert LocalOk(me, st.electors[me]);
      r := if turn.lost then None else st.electors[me].pc.reply;
      Do(Answer(me, r.None?));
    }
  }

  /** The log of a Resign that deletes, when it has stopped the loop after `log`;
      `failed` says whether the answer to the delete was lost. */
  function ReleaseLog(log: seq<Action>, me: string, del: Turn<Action>, settle: seq<Action>, failed: bool): seq<Action> {
    log + [ResignCheck(me)] + del.env + [Answer(me, failed)] + settle + [Update(me)] + [Update(me)]
  }

  datatype Options = Options(table: string, key: string, owner: string, lease: int)

  datatype Error = TableRequired | KeyRequired | OwnerRequired | LeaseNotPositive | Transport

  /** After `log`, `me` waits for the answer to `req` in a tick that started at `now`, and
      hears `r`: what the table has answered, unless that is lost. */
  predicate Hears(start: State, log: seq<Action>, me: string, req: Request, now: int, lost: bool, r: Option<Reply>) {
    var s := Exec(start, log);
    && me in s.electors && s.electors[me].pc.Calling?
    && s.electors[me].pc.req == req && s.electors[me].pc.now == now
    && r == (if lost then None else s.electors[me].pc.reply)
  }

  /** After `log`, `me` gets no answer. */
  predicate Unheard(start: State, log: seq<Action>, me: string, lost: bool) {
    var s := Exec(start, log);
    lost || (me in s.electors && s.electors[me].pc.Calling? && s.electors[me].pc.reply.None?)
  }

  /** The flag is raised, or lowered, by assignments of the tick's own. */
  function Raised(log: seq<Action>, me: string, settle: seq<Action>): seq<Action> {
    log + [Update(me)] + settle + [Update(me)]
  }

  function Lowered(log: seq<Action>, me: string, settle: seq<Action>): seq<Action> {
    log + settle + [Update(me)]
  }

  /** The log of the read after a failed put; `got` is what it heard. */
  function InspectLog(log: seq<Action>, me: string, now: int, t: TickTurns, got: Option<Reply>): seq<Action> {
    var read := log + t.inspect.env + [Answer(me, got.None?)];
    if got.Some? && got.value.Got? && Deposes(me, now, got.value.item) then Lowered(read, me, t.settle) else read
  }

  /** The log of a tick that heard `put` from its put, and `got` from its read if it
      made one. */
  function TickLog(log: seq<Action>, me: string, now: int, t: TickTurns, put: Option<Reply>, got: Option<Reply>)
    : seq<Action>
  {
    var answered := log + [BeginTick(me)] + t.put.env + [Answer(me, put.None?)];
    if put.None? then answered
    else if put.value.Done? then Raised(answered, me, t.settle)
    else InspectLog(answered, me, now, t, got)
  }

  /** How many ticks `me` has begun. */
  function Begun(log: seq<Action>, me: string): nat {
    if log == [] then 0
    else Begun(log[..|log| - 1], me) + if log[|log| - 1] == BeginTick(me) then 1 else 0
  }

  lemma BegunOne(a: seq<Action>, b: Action, me: string)
    ensures Begun(a + [b], me) == Begun(a, me) + if b == BeginTick(me) then 1 else 0
  {
    assert (a + [b])[..|a|] == a;
  }

  lemma {:induction false} ForeignBegun(a: seq<Action>, env: seq<Action>, me: string)
    requires AllForeign(me, env)
    ensures Begun(a + env, me) == Begun(a, me)
    decreases |env|
  {
    if env == [] {
      assert a + env == a;
    } else {
      var front := env[..|env| - 1];
      assert a + env == (a + front) + [env[|env| - 1]];
      assert Foreign(me, env[|env| - 1]);
      assert forall i :: 0 <= i < |front| ==> front[i] == env[i];
      ForeignBegun(a, front, me);
      BegunOne(a + front, env[|env| - 1], me);
    }
  }

  lemma FlagBegun(log: seq<Action>, me: string, settle: seq<Action>)
    requires AllForeign(me, settle)
    ensures Begun(Raised(log, me, settle), me) == Begun(log, me)
    ensures Begun(Lowered(log, me, settle), me) == Begun(log, me)
  {
    BegunOne(log, Update(me), me);
    ForeignBegun(log + [Update(me)], settle, me);
    BegunOne(log + [Update(me)] + settle, Update(me), me);
    ForeignBegun(log, settle, me);
    BegunOne(log + settle, Update(me), me);
  }

  /** A tick begins once. */
  lemma TickBegun(log: seq<Action>, me: string, now: int, t: TickTurns, put: Option<Reply>, got: Option<Reply>)
    requires TurnsOk(me, t)
    ensures Begun(TickLog(log, me, now, t, put, got), me) == Begun(log, me) + 1
  {
    var answered := log + [BeginTick(me)] + t.put.env + [Answer(me, put.None?)];
    BegunOne(log, BeginTick(me), me);
    ForeignBegun(log + [BeginTick(me)], t.put.env, me);
    BegunOne(log + [BeginTick(me)] + t.put.env, Answer(me, put.None?), me);
    FlagBegun(answered, me, t.settle);
    InspectBegun(answered, me, now, t, got);
  }

  lemma InspectBegun(log: seq<Action>, me: string, now: int, t: TickTurns, got: Option<Reply>)
    requires TurnsOk(me, t)
    ensures Begun(InspectLog(log, me, now, t, got), me) == Begun(log, me)
  {
    ForeignBegun(log, t.inspect.env, me);
    BegunOne(log + t.inspect.env, Answer(me, got.None?), me);
    FlagBegun(log + t.inspect.env + [Answer(me, got.None?)], me, t.settle);
  }

  lemma TickExtends(log: seq<Action>, me: string, now: int, t: TickTurns, put: Option<Reply>, got: Option<Reply>)
    ensures log < TickLog(log, me, now, t, put, got)
  {
    var answered := log + [BeginTick(me)] + t.put.env + [Answer(me, put.None?)];
    var read := answered + t.inspect.env + [Answer(me, got.None?)];
    assert log < log + [BeginTick(me)] <= log + [BeginTick(me)] + t.put.env <= answered;
    assert answered <= answered + t.inspect.env <= read;
    FlagExtends(answered, me, t.settle);
    FlagExtends(read, me, t.settle);
  }

  lemma FlagExtends(log: seq<Action>, me: string, settle: seq<Action>)
    ensures log <= Raised(log, me, settle) && log <= Lowered(log, me, settle)
  {
    assert log <= log + [Update(me)] <= log + [Update(me)] + settle;
    assert log <= log + settle;
  }

  /** The calls of the tick are answered at once, and nobody else moves. */
  predicate Prompt(me: string, t: TickTurns) {
    t.put == Turn([Deliver(me, true)], false) && t.inspect == t.put && t.settle == []
  }

  /** A promptly answered tick is the fault-free tick of the transition system. */
  lemma PromptTick(start: State, log: seq<Action>, me: string, t: TickTurns, put: Option<Reply>, got: Option<Reply>)
    requires Init(start) && Ready(Exec(start, log), me) && Prompt(me, t)
    requires var l := Exec(start, log).electors[me];
      && Hears(start, log + [BeginTick(me)] + t.put.env, me, PutItem(NewItem(me, l), Unix(l.clock)), l.clock,
               false, put)
      && (put == Some(ConditionFailed) ==>
            Hears(start, log + [BeginTick(me)] + t.put.env + [Answer(me, false)] + t.inspect.env, me, GetItem, l.clock,
                  false, got))
    ensures var s := Exec(start, log);
      TickLog(log, me, s.electors[me].clock, t, put, got) == log + FaultFreeTick(s, me)
    ensures put.Some? && (put.value.Done? || (put.value.ConditionFailed? && got.Some?))
  {
    var s := Exec(start, log);
    var now := s.electors[me].clock;
    InitInv(start);
    ExecInv(start, log);
    var claim := [BeginTick(me), Deliver(me, true), Answer(me, false)];
    PutAtOnce(start, log, me, put);
    assert log + [BeginTick(me)] + t.put.env + [Answer(me, false)] == log + claim;
    if Takeable(Abs(s), me, now) {
      assert TickLog(log, me, now, t, put, got) == log + (claim + [Update(me), Update(me)]);
    } else {
      PromptRead(start, log, me, now, got);
      assert TickLog(log, me, now, t, put, got) == log + (claim + [Deliver(me, true), Answer(me, false), Update(me)]);
    }
  }

  /** A promptly answered tick that could not take the item reads one that deposes it. */
  lemma PromptRead(start: State, log: seq<Action>, me: string, now: int, got: Option<Reply>)
    requires Init(start) && Ready(Exec(start, log), me) && now == Exec(start, log).electors[me].clock
    requires !Takeable(Abs(Exec(start, log)), me, now)
    requires Hears(start, log + [BeginTick(me), Deliver(me, true), Answer(me, false)] + [Deliver(me, true)], me,
                   GetItem, now, false, got)
    ensures got.Some? && got.value.Got? && Deposes(me, now, got.value.item)
  {
    var claim := [BeginTick(me), Deliver(me, true), Answer(me, false)];
    InitInv(start);
    ExecInv(start, log);
    var s1 := Claimed(Exec(start, log), me);
    ExecConcat(start, log, claim);
    ReadAtOnce(start, log + claim, me, now, got);
  }

  lemma PutAtOnce(start: State, log: seq<Action>, me: string, put: Option<Reply>)
    requires Init(start) && Ready(Exec(start, log), me)
    requires var l := Exec(start, log).electors[me];
      Hears(start, log + [BeginTick(me)] + [Deliver(me, true)], me, PutItem(NewItem(me, l), Unix(l.clock)), l.clock,
            false, put)
    ensures var s := Exec(start, log);
      put == Some(if Takeable(Abs(s), me, s.electors[me].clock) then Done else ConditionFailed)
  {
    var s := Exec(start, log);
    ExecConcat(start, log, [BeginTick(me)]);
    ExecConcat(start, log + [BeginTick(me)], [Deliver(me, true)]);
    ExecOne(s, BeginTick(me));
    ExecOne(Next(s, BeginTick(me)), Deliver(me, true));
  }

  lemma ReadAtOnce(start: State, log: seq<Action>, me: string, now: int, got: Option<Reply>)
    requires var s := Exec(start, log); me in s.electors && s.electors[me].pc == Calling(GetItem, now, None)
    requires Hears(start, log + [Deliver(me, true)], me, GetItem, now, false, got)
    ensures got == Some(Got(Exec(start, log).stored))
  {
    ExecConcat(start, log, [Deliver(me, true)]);
    ExecOne(Exec(start, log), Deliver(me, true));
  }

  lemma PromptOutcome(start: State, log: seq<Action>, me: string, t: TickTurns, put: Option<Reply>, got: Option<Reply>)
    requires Init(start) && Ready(Exec(start, log), me) && Prompt(me, t)
    requires var l := Exec(start, log).electors[me];
      && Hears(start, log + [BeginTick(me)] + t.put.env, me, PutItem(NewItem(me, l), Unix(l.clock)), l.clock,
               false, put)
      && (put == Some(ConditionFailed) ==>
            Hears(start, log + [BeginTick(me)] + t.put.env + [Answer(me, false)] + t.inspect.env, me, GetItem, l.clock,
                  false, got))
    ensures var s := Exec(start, log);
            var l := s.electors[me];
            var s' := Exec(start, TickLog(log, me, l.clock, t, put, got));
      && me in s'.electors && s'.electors[me].leader == Takeable(Abs(s), me, l.clock)
      && Abs(s') == if Takeable(Abs(s), me, l.clock) then Held(me, (l.clock + 3 * l.lease) / 1_000_000_000) else Abs(s)
    ensures put.Some? && (put.value.Done? || (put.value.ConditionFailed? && got.Some?))
  {
    PromptTick(start, log, me, t, put, got);
    FaultFreeAfter(start, log, me);
  }

  lemma FaultFreeAfter(start: State, log: seq<Action>, me: string)
    requires Init(start) && Ready(Exec(start, log), me)
    ensures var s := Exec(start, log);
            var l := s.electors[me];
            var s' := Exec(start, log + FaultFreeTick(s, me));
      && me in s'.electors && s'.electors[me].leader == Takeable(Abs(s), me, l.clock)
      && Abs(s') == if Takeable(Abs(s), me, l.clock) then Held(me, (l.clock + 3 * l.lease) / 1_000_000_000) else Abs(s)
  {
    var s := Exec(start, log);
    InitInv(start);
    ExecInv(start, log);
    FaultFreeOutcome(s, me);
    ExecConcat(start, log, FaultFreeTick(s, me));
  }

  /** The delete of Resign is answered at once, and nobody else moves. */
  predicate PromptDelete(me: string, del: Turn<Action>, settle: seq<Action>) {
    del == Turn([Deliver(me, true)], false) && settle == []
  }

  /** The item, unless it is `me`'s. */
  function WithoutOwn(stored: Option<Item>, me: string): Option<Item> {
    if stored.Some? && stored.value.owner == me then None else stored
  }

  lemma DeleteAnswered(s: State, me: string, del: Turn<Action>)
    requires me in s.electors && s.electors[me].pc.Calling? && s.electors[me].pc.req == DeleteItem
    requires PromptDelete(me, del, [])
    ensures var s' := Exec(s, del.env);
      && me in s'.electors && s'.electors[me].pc.Calling? && s'.electors[me].pc.reply.Some?
      && Next(s', Answer(me, false)).stored == WithoutOwn(s.stored, me)
  {
    ExecOne(s, Deliver(me, true));
  }

  /** The item read after a failed put shows that `me` does not hold the lease. */
  predicate Deposes(me: string, now: int, item: Option<Item>) {
    item.None? || item.value.owner != me || item.value.leaseUntil > Unix(now)
  }

  /** What the answer to the read, or its loss, makes of the reader. */
  lemma ReadAnswered(s: State, me: string, now: int, r: Option<Reply>)
    requires me in s.electors && s.electors[me].pc.Calling?
    requires s.electors[me].pc.req.GetItem? && s.electors[me].pc.now == now
    requires r.Some? ==> r.value.Got? && s.electors[me].pc.reply == r
    ensures var down := r.Some? && Deposes(me, now, r.value.item);
            var s' := Next(s, Answer(me, r.None?));
            me in s'.electors && s'.electors[me] == s.electors[me].(pc := if down then Storing(false) else Idle)
  {
  }

  /** Where a tick goes after the answer to its put, or its loss. */
  lemma PutAnswered(s: State, me: string, r: Option<Reply>)
    requires me in s.electors && s.electors[me].pc.Calling? && s.electors[me].pc.req.PutItem?
    requires r.Some? ==> (r.value.Done? || r.value.ConditionFailed?) && s.electors[me].pc.reply == r
    ensures var s' := Next(s, Answer(me, r.None?));
            var pc := s.electors[me].pc;
      me in s'.electors &&
      s'.electors[me] == s.electors[me].(pc := if r.None? then Idle
                                               else if r.value.Done? then Acked(pc.req.item.version, pc.now)
                                               else Calling(GetItem, pc.now, None))
  {
  }

  class Elector {
    const be: Table
    const opts: Options
    var leader: bool
    var heldVersion: int
    var started: bool

    function Me(): string { opts.owner }

    /** The elector's local part of the shared state. */
    function Mine(): Local
      reads this, be
      requires Me() in be.st.electors
    {
      be.st.electors[Me()]
    }

    ghost predicate Valid()
      reads this, be
    {
      && be.Valid()
      && Me() in be.st.electors
      && Mine().leader == leader && Mine().heldVersion == heldVersion && Mine().lease == opts.lease
      && (started <==> !Mine().phase.NotStarted?)
    }

    /** The state after the first `n` steps. */
    ghost function At(n: nat): State
      reads this, be
      requires n <= |be.log|
    {
      Exec(be.start, be.log[..n])
    }

    /** Was the flag up then? */
    ghost predicate LeaderAt(n: nat)
      reads this, be
      requires n <= |be.log|
    {
      Me() in At(n).electors && At(n).electors[Me()].leader
    }

    /** No method of this elector is running. */
    ghost predicate AtRest()
      reads this, be
      requires Me() in be.st.electors
    {
      Mine().pc.Idle?
    }

    constructor (be: Table, opts: Options)
      requires be.Valid() && opts.owner in be.st.electors
      requires be.st.electors[opts.owner].phase.NotStarted? && be.st.electors[opts.owner].lease == opts.lease
      requires be.st.electors[opts.owner].heldVersion == 0
      ensures Valid() && !started && AtRest() && this.be == be && this.opts == opts
    {
      this.be := be;
      this.opts := opts;
      leader := false;
      heldVersion := 0;
      started := false;
      InitInv(be.start);
      ExecInv(be.start, be.log);
      assert LocalOk(opts.owner, be.st.electors[opts.owner]);
    }

    method Validate() returns (err: Option<Error>)
      ensures err.None? <==> opts.table != "" && opts.key != "" && opts.owner != "" && opts.lease > 0
    {
      if opts.table == "" { return Some(TableRequired); }
      if opts.key == "" { return Some(KeyRequired); }
      if opts.owner == "" { return Some(OwnerRequired); }
      if opts.lease <= 0 { return Some(LeaseNotPositive); }
      return None;
    }

    /** `heldVersion = newVersion; leader.Store(true)` after a successful put. */
    method Acknowledge(version: int, now: int, settle: seq<Action>)
      requires Valid() && Mine().pc == Acked(version, now) && AllForeign(Me(), settle)
      requires Mine().phase.Running? || Mine().phase.Cancelled?
      modifies this`heldVersion, this`leader, be
      ensures Valid() && AtRest() && be.log == Raised(old(be.log), Me(), settle)
      ensures leader && heldVersion == version && Mine().lastNow == old(Mine().lastNow)
      ensures Mine().acked == Some(now + 3 * opts.lease)
      ensures StaysInLoop(old(Mine().phase), Mine().phase)
    {
      heldVersion := version;
      be.Do(Update(Me()));
      be.Interleave(settle, Me());
      leader := true;
      be.Do(Update(Me()));
    }

    /** `leader.Store(false)`. */
    method StepDown(settle: seq<Action>)
      requires Valid() && Mine().pc == Storing(false) && AllForeign(Me(), settle)
      requires Mine().phase.Running? || Mine().phase.Cancelled?
      modifies this`leader, be
      ensures Valid() && AtRest() && be.log == Lowered(old(be.log), Me(), settle)
      ensures !leader && Mine().lastNow == old(Mine().lastNow) && Mine().acked == old(Mine().acked)
      ensures StaysInLoop(old(Mine().phase), Mine().phase)
    {
      be.Interleave(settle, Me());
      leader := false;
      be.Do(Update(Me()));
    }

    /** The conditional put failed: read the item, and step down unless it is our
        own and has run out. A transport error leaves the flag alone. */
    method Inspect(now: int, t: TickTurns) returns (err: Option<Error>, ghost got: Option<Reply>)
      requires Valid() && TurnsOk(Me(), t)
      requires Mine().pc == Calling(GetItem, now, None)
      requires Mine().phase.Running? || Mine().phase.Cancelled?
      modifies this`leader, be
      ensures Valid() && AtRest() && be.log == InspectLog(old(be.log), Me(), now, t, got)
      ensures StaysInLoop(old(Mine().phase), Mine().phase) && Mine().lastNow == old(Mine().lastNow)
      ensures Mine().acked == old(Mine().acked)
      ensures Hears(be.start, old(be.log) + t.inspect.env, Me(), GetItem, now, t.inspect.lost, got)
      ensures err.None? <==> got.Some?
      ensures err.Some? ==> leader == old(leader)
      ensures err.None? ==> got.value.Got? && leader == (old(leader) && !Deposes(Me(), now, got.value.item))
    {
      var out := Fetch(now, t.inspect);
      got := out;
      if out.None? { return Some(Transport), got; }
      var item := out.value.item;
      if item.None? {
        StepDown(t.settle);
      } else if item.value.owner != Me() || item.value.leaseUntil > Unix(now) {
        StepDown(t.settle);
      }
      err := None;
    }

    /** The consistent read of the item. */
    method Fetch(now: int, turn: Turn<Action>) returns (got: Option<Reply>)
      requires Valid() && Mine().pc == Calling(GetItem, now, None) && AllForeign(Me(), turn.env)
      requires Mine().phase.Running? || Mine().phase.Cancelled?
      modifies be
      ensures Valid() && be.log == old(be.log) + turn.env + [Answer(Me(), got.None?)]
      ensures StaysInLoop(old(Mine().phase), Mine().phase)
      ensures Mine().lastNow == old(Mine().lastNow) && Mine().acked == old(Mine().acked)
      ensures Hears(be.start, old(be.log) + turn.env, Me(), GetItem, now, turn.lost, got)
      ensures got.Some? ==> got.value.Got?
      ensures Mine().pc == if got.Some? && Deposes(Me(), now, got.value.item) then Storing(false) else Idle
    {
      got := be.Call(Me(), turn);
      ReadAnswered(Exec(old(be.st), turn.env), Me(), now, got);
    }

    /** One renewal attempt. It commits a write ending 3 * Lease after its start and
        raises the flag; or it meets a transport error and leaves the flag alone; or it
        reads an item and lowers the flag when that deposes this elector. `put` and
        `got` are what it hears from its put and its read. */
    method Tick(t: TickTurns) returns (err: Option<Error>, ghost put: Option<Reply>, ghost got: Option<Reply>)
      requires Valid() && AtRest() && TurnsOk(Me(), t)
      requires Mine().phase.Running? || Mine().phase.Cancelled?
      modifies this`heldVersion, this`leader, be
      ensures Valid() && AtRest()
      ensures be.log == TickLog(old(be.log), Me(), old(Mine().clock), t, put, got)
      ensures StaysInLoop(old(Mine().phase), Mine().phase)
      ensures Mine().lastNow == Some(old(Mine().clock))
      ensures var now := old(Mine().clock);
        && Hears(be.start, old(be.log) + [BeginTick(Me())] + t.put.env, Me(),
                 PutItem(NewItem(Me(), old(Mine())), Unix(now)), now, t.put.lost, put)
        && (if put == Some(ConditionFailed) then
              Hears(be.start, old(be.log) + [BeginTick(Me())] + t.put.env + [Answer(Me(), false)] + t.inspect.env, Me(),
                    GetItem, now, t.inspect.lost, got)
            else got.None?)
        && (err.None? <==> put.Some? && (put.value.Done? || got.Some?))
      ensures put == Some(Done) ==>
                && leader && heldVersion == (if old(heldVersion) == MAX_INT64 then 1 else old(heldVersion) + 1)
                && Mine().acked == Some(old(Mine().clock) + 3 * opts.lease)
      ensures put != Some(Done) ==> heldVersion == old(heldVersion) && Mine().acked == old(Mine().acked)
      ensures err.Some? ==> leader == old(leader)
      ensures got.Some? ==>
                got.value.Got? &&
                (leader <==> old(leader) && got.value.item.Some? && got.value.item.value.owner == Me() &&
                             got.value.item.value.leaseUntil <= old(Mine().clock) / 1_000_000_000)
      ensures old(Mine().phase.Running?) && Prompt(Me(), t) ==>
                var now := old(Mine().clock);
                && err.None? && leader == Takeable(Abs(old(be.st)), Me(), now)
                && Abs(be.st) == if leader then Held(Me(), (now + 3 * opts.lease) / 1_000_000_000) else Abs(old(be.st))
    {
      var now := Mine().clock;
      var version := NextVersion(heldVersion);
      LocalInv();
      var out := Put(now, version, t.put);
      put, got := out, None;
      if out.None? {
        err := Some(Transport);
      } else if out.value.Done? {
        Acknowledge(version, now, t.settle);
        err := None;
      } else {
        err, got := Inspect(now, t);
      }
      if old(Mine().phase.Running?) && Prompt(Me(), t) {
        PromptOutcome(be.start, old(be.log), Me(), t, put, got);
      }
    }

    /** The conditional put a tick starts with. */
    method Put(now: int, version: int, turn: Turn<Action>) returns (out: Option<Reply>)
      requires Valid() && AtRest() && AllForeign(Me(), turn.env)
      requires now == Mine().clock && version == NextVersion(heldVersion)
      requires Mine().phase.Running? || Mine().phase.Cancelled?
      modifies be
      ensures Valid() && be.log == old(be.log) + [BeginTick(Me())] + turn.env + [Answer(Me(), out.None?)]
      ensures StaysInLoop(old(Mine().phase), Mine().phase)
      ensures Mine().lastNow == Some(now) && Mine().acked == old(Mine().acked)
      ensures Hears(be.start, old(be.log) + [BeginTick(Me())] + turn.env, Me(),
                    PutItem(NewItem(Me(), old(Mine())), Unix(now)), now, turn.lost, out)
      ensures out.Some? ==> out.value.Done? || out.value.ConditionFailed?
      ensures Mine().pc == if out.None? then Idle
                           else if out.value.Done? then Acked(version, now) else Calling(GetItem, now, None)
    {
      be.Do(BeginTick(Me()));
      ghost var began := be.st;
      assert Mine().pc.req == PutItem(Item(Me(), Unix(Deadline(now, opts.lease)), version), Unix(now));
      out := be.Call(Me(), turn);
      PutAnswered(Exec(began, turn.env), Me(), out);
    }

    /** The renewal loop: one tick per turn. Once the loop is cancelled it may stop
        before any further tick. */
    method Loop(turns: seq<TickTurns>, stopEarly: bool) returns (ghost ticks: nat)
      requires Valid() && AtRest() && (forall i :: 0 <= i < |turns| ==> TurnsOk(Me(), turns[i]))
      requires Mine().phase.Running? || Mine().phase.Cancelled?
      modifies this`heldVersion, this`leader, be
      ensures Valid() && AtRest() && old(be.log) <= be.log
      ensures StaysInLoop(old(Mine().phase), Mine().phase)
      ensures ticks <= |turns| && Begun(be.log, Me()) == Begun(old(be.log), Me()) + ticks
      ensures ticks < |turns| ==> stopEarly && Mine().phase.Cancelled?
    {
      var i := 0;
      while i < |turns|
        invariant 0 <= i <= |turns|
        invariant Valid() && AtRest() && old(be.log) <= be.log
        invariant StaysInLoop(old(Mine().phase), Mine().phase)
        invariant Begun(be.log, Me()) == Begun(old(be.log), Me()) + i
      {
        if Mine().phase.Cancelled? && stopEarly { return i; }
        OneTick(turns[i]);
        i := i + 1;
      }
      ticks := i;
    }

    /** `_ = e.tick(ctx)` */
    method OneTick(t: TickTurns)
      requires Valid() && AtRest() && TurnsOk(Me(), t)
      requires Mine().phase.Running? || Mine().phase.Cancelled?
      modifies this`heldVersion, this`leader, be
      ensures Valid() && AtRest() && old(be.log) < be.log
      ensures StaysInLoop(old(Mine().phase), Mine().phase)
      ensures Mine().lastNow == Some(old(Mine().clock))
      ensures Begun(be.log, Me()) == Begun(old(be.log), Me()) + 1
    {
      ghost var log, now := be.log, Mine().clock;
      var _, put, got := Tick(t);
      TickExtends(log, Me(), now, t, put, got);
      TickBegun(log, Me(), now, t, put, got);
    }

    /** Validates the options and, the first time, runs one tick before the loop
        starts. */
    method Start(t: TickTurns) returns (err: Option<Error>)
      requires Valid() && AtRest() && TurnsOk(Me(), t)
      modifies this, be
      ensures Valid() && AtRest()
      ensures err.Some? <==> opts.table == "" || opts.key == "" || opts.owner == "" || opts.lease <= 0
      ensures err.Some? || old(started) ==>
                && leader == old(leader) && heldVersion == old(heldVersion)
                && started == old(started) && be.log == old(be.log)
      ensures err.None? ==> started
      ensures err.None? && !old(started) ==>
                && old(be.log) < be.log && Mine().lastNow == Some(old(Mine().clock))
                && Begun(be.log, Me()) == Begun(old(be.log), Me()) + 1
    {
      err := Validate();
      if err.Some? || started { return; }
      started := true;
      be.Do(Action.Start(Me()));
      BegunOne(old(be.log), Action.Start(Me()), Me());
      OneTick(t);
    }

    lemma LocalInv()
      requires Valid()
      ensures LocalOk(Me(), Mine())
    {
      InitInv(be.start);
      ExecInv(be.start, be.log);
      assert LocalOk(Me(), be.st.electors[Me()]);
    }

    /** `cancel` and the wait for the loop to finish: until it sees the cancel it makes
        the ticks `rest`. */
    method StopLoop(rest: seq<TickTurns>)
      requires Valid() && AtRest() && (forall i :: 0 <= i < |rest| ==> TurnsOk(Me(), rest[i]))
      modifies this`heldVersion, this`leader, be
      ensures Valid() && AtRest() && old(be.log) <= be.log
      ensures leader ==> Mine().phase.Cancelled?
      ensures started ==> Mine().phase.Cancelled? || Mine().phase.Resigned?
      ensures old(Mine().phase.Resigned?) ==> be.st == old(be.st) && Mine().phase.Resigned?
      ensures Begun(be.log, Me()) == Begun(old(be.log), Me()) +
              if old(Mine().phase.Running? || Mine().phase.Cancelled?) then |rest| else 0
    {
      LocalInv();
      if Mine().phase.Running? || Mine().phase.Cancelled? {
        be.Do(Cancel(Me()));
        BegunOne(old(be.log), Cancel(Me()), Me());
        var _ := Loop(rest, false);
      }
      LocalInv();
    }

    /** Deletes the item if it still names this owner; the flag comes down before the
        version is cleared, and whatever the answer was. */
    method Release(del: Turn<Action>, settle: seq<Action>) returns (err: Option<Error>)
      requires Valid() && AtRest() && leader && Mine().phase.Cancelled?
      requires AllForeign(Me(), del.env) && AllForeign(Me(), settle)
      modifies this`heldVersion, this`leader, be
      ensures Valid() && AtRest()
      ensures !leader && heldVersion == 0 && Mine().phase.Resigned?
      ensures be.log == ReleaseLog(old(be.log), Me(), del, settle, err.Some?)
      ensures err.Some? <==> Unheard(be.start, old(be.log) + [ResignCheck(Me())] + del.env, Me(), del.lost)
      ensures err.Some? ==> err == Some(Transport)
      ensures PromptDelete(Me(), del, settle) ==> err.None? && be.st.stored == WithoutOwn(old(be.st.stored), Me())
    {
      be.Do(ResignCheck(Me()));
      assert Mine().pc.req == DeleteItem;
      if PromptDelete(Me(), del, settle) { DeleteAnswered(be.st, Me(), del); }
      var out := be.Call(Me(), del);
      StandAside(settle);
      return if out.None? then Some(Transport) else None;
    }

    /** `leader.Store(false)`, then the held value is cleared. */
    method StandAside(settle: seq<Action>)
      requires Valid() && Mine().pc == Storing(false) && Mine().phase.Deleting? && AllForeign(Me(), settle)
      modifies this`heldVersion, this`leader, be
      ensures Valid() && AtRest() && be.log == old(be.log) + settle + [Update(Me())] + [Update(Me())]
      ensures !leader && heldVersion == 0 && Mine().phase.Resigned?
      ensures settle == [] ==> be.st.stored == old(be.st.stored)
    {
      be.Interleave(settle, Me());
      leader := false;
      be.Do(Update(Me()));
      heldVersion := 0;
      be.Do(Update(Me()));
    }

    /** Cancels the loop, waits for it to finish, and deletes the item when this
        elector still believes it leads. */
    method Resign(rest: seq<TickTurns>, del: Turn<Action>, settle: seq<Action>)
      returns (err: Option<Error>, ghost at: nat)
      requires Valid() && AtRest() && (forall i :: 0 <= i < |rest| ==> TurnsOk(Me(), rest[i]))
      requires AllForeign(Me(), del.env) && AllForeign(Me(), settle)
      modifies this`heldVersion, this`leader, be
      ensures Valid() && AtRest()
      ensures started ==> !leader && Mine().phase.Resigned?
      ensures !started ==> err.None? && leader == old(leader) && be.log == old(be.log)
      ensures old(started && Mine().phase.Resigned?) ==> err.None? && be.st == old(be.st)
      ensures started ==>
                && |old(be.log)| <= at <= |be.log| && old(be.log) <= be.log[..at]
                && be.log == (if LeaderAt(at) then ReleaseLog(be.log[..at], Me(), del, settle, err.Some?)
                              else be.log[..at] + [ResignCheck(Me())])
                && (err.Some? <==> LeaderAt(at) &&
                                   Unheard(be.start, be.log[..at] + [ResignCheck(Me())] + del.env, Me(), del.lost))
      ensures old(Mine().phase.Running? || Mine().phase.Cancelled?) ==>
                Begun(be.log[..at], Me()) == Begun(old(be.log), Me()) + |rest|
      ensures started && LeaderAt(at) && PromptDelete(Me(), del, settle) ==>
                be.st.stored == WithoutOwn(At(at).stored, Me())
    {
      if !started { return None, |be.log|; }
      StopLoop(rest);
      ghost var stopped := be.log;
      at := |stopped|;
      if !leader {
        be.Do(ResignCheck(Me()));
        assert be.log[..at] == stopped;
        return None, at;
      }
      err := Release(del, settle);
      assert be.log[..at] == stopped;
    }
  }

  /** Exclusion for the objects: two electors on one table that both lead are the
      same owner, and the item is its own. */
  lemma ObjectsExclude(e: Elector, f: Elector, d: nat)
    requires e.be == f.be && e.Valid() && f.Valid() && e.leader && f.leader
    requires SyncedRun(e.be.start, e.be.log, d)
    requires OutsideResign(e.Mine()) && e.Mine().acked.Some? && e.Mine().clock + d <= e.Mine().acked.value
    requires OutsideResign(f.Mine()) && f.Mine().acked.Some? && f.Mine().clock + d <= f.Mine().acked.value
    ensures e.Me() == f.Me() && StoredFor(e.be.st, e.Me(), e.Mine().acked.value)
  {
    Exclusion(e.be.start, e.be.log, d, e.Me(), f.Me());
  }
}
