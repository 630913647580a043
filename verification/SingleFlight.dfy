/** `Client.GetOrLoad` as a transition system: any number of concurrent calls share
    a cache and a map of loads in flight. Every step is one cache operation, one
    critical section, or one step of a call's own. As in S3LockProtocol, `Next` is
    total and a run is any sequence of actions. */
module SingleFlight {
  import opened Common

  datatype Error = LoadFailed(code: int) | StoreFailed(code: int)

  /** What GetOrLoad returns. */
  datatype Outcome = Outcome(val: Bytes, err: Option<Error>)

  /** A `flightCall`: the outcome its leader fills in, and whether the leader has
      released its waiters. */
  datatype Flight = Flight(outcome: Outcome, done: bool)

  const NO_OUTCOME: Outcome := Outcome([], None)

  datatype Pc =
    | Probing
    | Registering
    | Waiting(leader: nat)
    | Rechecking
    | Loading
    | Saving(val: Bytes)
    | Unregistering(result: Outcome)
    | Releasing(result: Outcome)
    | Returned(outcome: Outcome, joined: Option<nat>)

  datatype Call = Call(key: string, pc: Pc)

  /** Calls are numbered, and a call that leads a flight owns the flight of its own
      number. */
  datatype State = State(
    store: map<string, Bytes>,
    flights: map<string, nat>,
    slots: map<nat, Flight>,
    calls: map<nat, Call>)

  datatype Saved = Ok | LostBefore(code: int) | LostAfter(code: int)

  datatype Action =
    | Invoke(c: nat, key: string)
    | Probe(c: nat, fails: bool)
    | Register(c: nat)
    | Join(c: nat)
    | Recheck(c: nat, fails: bool)
    | LoadReturn(c: nat, result: Outcome)
    | Save(c: nat, how: Saved)
    | Unregister(c: nat)
    | Release(c: nat)
    | Remove(key: string)
    | Put(key: string, val: Bytes)

  function Goto(s: State, c: nat, pc: Pc): State
    requires c in s.calls
  {
    s.(calls := s.calls[c := s.calls[c].(pc := pc)])
  }

  function Fill(s: State, c: nat, o: Outcome): State {
    s.(slots := s.slots[c := Flight(o, false)])
  }

  /** A cache read; one that fails reads as a miss. */
  function Get(s: State, key: string, fails: bool): Option<Bytes> {
    if key in s.store && !fails then Some(s.store[key]) else None
  }

  // Each step of a call, from the program counter it starts at.

  function OnProbe(s: State, c: nat, fails: bool): State
    requires c in s.calls && s.calls[c].pc.Probing?
  {
    match Get(s, s.calls[c].key, fails)
    case Some(v) => Goto(s, c, Returned(Outcome(v, None), None))
    case None => Goto(s, c, Registering)
  }

  function OnRegister(s: State, c: nat): State
    requires c in s.calls && s.calls[c].pc.Registering?
  {
    var key := s.calls[c].key;
    if key in s.flights then Goto(s, c, Waiting(s.flights[key]))
    else Goto(Fill(s.(flights := s.flights[key := c]), c, NO_OUTCOME), c, Rechecking)
  }

  function OnJoin(s: State, c: nat): State
    requires c in s.calls && s.calls[c].pc.Waiting?
  {
    var leader := s.calls[c].pc.leader;
    if leader in s.slots && s.slots[leader].done
    then Goto(s, c, Returned(s.slots[leader].outcome, Some(leader))) else s
  }

  function OnRecheck(s: State, c: nat, fails: bool): State
    requires c in s.calls && s.calls[c].pc.Rechecking?
  {
    match Get(s, s.calls[c].key, fails)
    case Some(v) => Goto(Fill(s, c, Outcome(v, None)), c, Unregistering(Outcome(v, None)))
    case None => Goto(s, c, Loading)
  }

  function OnLoad(s: State, c: nat, r: Outcome): State
    requires c in s.calls && s.calls[c].pc.Loading?
  {
    if r.err.Some? then Goto(Fill(s, c, Outcome([], r.err)), c, Unregistering(Outcome([], r.err)))
    else Goto(s, c, Saving(r.val))
  }

  function OnSave(s: State, c: nat, how: Saved): State
    requires c in s.calls && s.calls[c].pc.Saving?
  {
    var val := s.calls[c].pc.val;
    var s1 := if how.LostBefore? then s else s.(store := s.store[s.calls[c].key := val]);
    var o := Outcome(val, if how.Ok? then None else Some(StoreFailed(how.code)));
    Goto(Fill(s1, c, o), c, Unregistering(o))
  }

  function OnUnregister(s: State, c: nat): State
    requires c in s.calls && s.calls[c].pc.Unregistering?
  {
    Goto(s.(flights := s.flights - {s.calls[c].key}), c, Releasing(s.calls[c].pc.result))
  }

  function OnRelease(s: State, c: nat): State
    requires c in s.calls && s.calls[c].pc.Releasing?
  {
    if c in s.slots
    then Goto(s.(slots := s.slots[c := s.slots[c].(done := true)]), c, Returned(s.calls[c].pc.result, None)) else s
  }

  /** A step of call `c` from its current program counter. */
  function CallStep(s: State, a: Action, c: nat): State
    requires c in s.calls
  {
    var pc := s.calls[c].pc;
    match a
    case Probe(_, fails) => if pc.Probing? then OnProbe(s, c, fails) else s
    case Register(_) => if pc.Registering? then OnRegister(s, c) else s
    case Join(_) => if pc.Waiting? then OnJoin(s, c) else s
    case Recheck(_, fails) => if pc.Rechecking? then OnRecheck(s, c, fails) else s
    case LoadReturn(_, r) => if pc.Loading? then OnLoad(s, c, r) else s
    case Save(_, how) => if pc.Saving? then OnSave(s, c, how) else s
    case Unregister(_) => if pc.Unregistering? then OnUnregister(s, c) else s
    case Release(_) => if pc.Releasing? then OnRelease(s, c) else s
    case _ => s
  }

  function Next(s: State, a: Action): State {
    match a
    case Invoke(c, key) =>
      if c in s.calls then s else s.(calls := s.calls[c := Call(key, Probing)])
    case Remove(key) => s.(store := s.store - {key})
    case Put(key, val) => s.(store := s.store[key := val])
    case _ => if a.c in s.calls then CallStep(s, a, a.c) else s
  }

  function Exec(s: State, run: seq<Action>): State
    decreases |run|
  {
    if run == [] then s else Exec(Next(s, run[0]), run[1..])
  }

  lemma {:induction false} ExecConcat(s: State, a: seq<Action>, b: seq<Action>)
    ensures Exec(s, a + b) == Exec(Exec(s, a), b)
    decreases |a|
  {
    if a == [] {
      assert a + b == b;
    } else {
      ExecConcat(Next(s, a[0]), a[1..], b);
      assert (a + b)[1..] == a[1..] + b;
    }
  }

  predicate Init(s: State) {
    s.flights == map[] && s.slots == map[] && s.calls == map[]
  }

  // ---------------------------------------------------------------- invariant

  /** The call has registered a flight and not yet taken it off the map. */
  predicate Leading(pc: Pc) {
    pc.Rechecking? || pc.Loading? || pc.Saving? || pc.Unregistering?
  }

  /** A load for the call's key is running or its value is on its way to the cache. */
  predicate LoadUnderWay(pc: Pc) {
    pc.Loading? || pc.Saving?
  }

  /** The flight of a waiter is finished, or its leader is at work. */
  predicate FlightAlive(s: State, key: string, leader: nat) {
    && leader in s.slots && leader in s.calls && s.calls[leader].key == key
    && (if s.slots[leader].done then s.calls[leader].pc == Returned(s.slots[leader].outcome, None)
        else Leading(s.calls[leader].pc) || s.calls[leader].pc.Releasing?)
  }

  predicate CallOk(s: State, c: nat) {
    c in s.calls &&
    var Call(key, pc) := s.calls[c];
    && (Leading(pc) ==> key in s.flights && s.flights[key] == c)
    && (Leading(pc) || pc.Releasing? ==> c in s.slots && !s.slots[c].done)
    && (pc.Rechecking? || pc.Loading? || pc.Saving? ==> s.slots[c].outcome == NO_OUTCOME)
    && (pc.Unregistering? || pc.Releasing? ==> s.slots[c].outcome == pc.result)
    && (pc.Waiting? ==> FlightAlive(s, key, pc.leader))
    && (pc.Probing? || pc.Registering? || pc.Waiting? ==> c !in s.slots)
    && (pc.Returned? && pc.joined.Some? ==>
          FlightAlive(s, key, pc.joined.value) && s.slots[pc.joined.value] == Flight(pc.outcome, true))
  }

  predicate Inv(s: State) {
    && (forall c :: c in s.calls ==> CallOk(s, c))
    && (forall k :: k in s.flights ==>
          s.flights[k] in s.calls && s.calls[s.flights[k]].key == k && Leading(s.calls[s.flights[k]].pc))
    && s.slots.Keys <= s.calls.Keys
  }

  lemma InitInv(s: State)
    requires Init(s)
    ensures Inv(s)
  {
  }

  predicate LeadsIn(s: State, c: nat) {
    c in s.calls && Leading(s.calls[c].pc)
  }

  /** What a step of call `c` may touch: its own call and slot, and the flight map
      exactly when it starts or stops leading. */
  predicate Frame(s: State, s': State, c: nat) {
    CallFrame(s, s', c) && FlightFrame(s, s', c)
  }

  predicate CallFrame(s: State, s': State, c: nat) {
    && c in s'.calls && s'.calls.Keys == s.calls.Keys + {c} && s'.slots.Keys <= s.slots.Keys + {c}
    && s.slots.Keys <= s'.slots.Keys
    && (forall o :: o in s.calls && o != c ==> s'.calls[o] == s.calls[o])
    && (forall o :: o in s.slots && o != c ==> s'.slots[o] == s.slots[o])
    && (c in s.calls ==> s'.calls[c].key == s.calls[c].key)
  }

  predicate FlightFrame(s: State, s': State, c: nat)
    requires c in s'.calls
  {
    && (LeadsIn(s, c) == LeadsIn(s', c) ==> s'.flights == s.flights)
    && (!LeadsIn(s, c) && LeadsIn(s', c) ==>
          s'.calls[c].key !in s.flights && s'.flights == s.flights[s'.calls[c].key := c])
    && (LeadsIn(s, c) && !LeadsIn(s', c) ==> s'.flights == s.flights - {s'.calls[c].key})
  }

  predicate IsCall(a: Action) { !a.Remove? && !a.Put? }

  /** How many steps of its own a call has left at most. */
  function Rank(pc: Pc): nat {
    match pc
    case Probing => 7
    case Registering => 6
    case Rechecking => 5
    case Loading => 4
    case Saving(_) => 3
    case Unregistering(_) => 2
    case Releasing(_) => 1
    case Waiting(_) => 1
    case Returned(_, _) => 0
  }

  /** A step of call `c` keeps to its frame and brings the call closer to its return,
      or changes nothing. */
  predicate Stepped(s: State, s': State, c: nat) {
    && c in s.calls && Frame(s, s', c)
    && (s' == s || Rank(s'.calls[c].pc) < Rank(s.calls[c].pc))
  }

  lemma ProbeStepped(s: State, c: nat, fails: bool)
    requires c in s.calls && s.calls[c].pc.Probing?
    ensures Stepped(s, OnProbe(s, c, fails), c)
  {
  }

  lemma RegisterStepped(s: State, c: nat)
    requires c in s.calls && s.calls[c].pc.Registering?
    ensures Stepped(s, OnRegister(s, c), c)
  {
  }

  lemma JoinStepped(s: State, c: nat)
    requires c in s.calls && s.calls[c].pc.Waiting?
    ensures Stepped(s, OnJoin(s, c), c)
  {
  }

  lemma RecheckStepped(s: State, c: nat, fails: bool)
    requires c in s.calls && s.calls[c].pc.Rechecking?
    ensures Stepped(s, OnRecheck(s, c, fails), c)
  {
  }

  lemma LoadStepped(s: State, c: nat, r: Outcome)
    requires c in s.calls && s.calls[c].pc.Loading?
    ensures Stepped(s, OnLoad(s, c, r), c)
  {
  }

  lemma SaveStepped(s: State, c: nat, how: Saved)
    requires c in s.calls && s.calls[c].pc.Saving?
    ensures Stepped(s, OnSave(s, c, how), c)
  {
  }

  lemma UnregisterStepped(s: State, c: nat)
    requires c in s.calls && s.calls[c].pc.Unregistering?
    ensures Stepped(s, OnUnregister(s, c), c)
  {
  }

  lemma ReleaseStepped(s: State, c: nat)
    requires c in s.calls && s.calls[c].pc.Releasing?
    ensures Stepped(s, OnRelease(s, c), c)
  {
  }

  lemma CallStepped(s: State, a: Action, c: nat)
    requires c in s.calls
    ensures Stepped(s, CallStep(s, a, c), c)
  {
    var pc := s.calls[c].pc;
    match a
    case Probe(_, fails) => if pc.Probing? { ProbeStepped(s, c, fails); }
    case Register(_) => if pc.Registering? { RegisterStepped(s, c); }
    case Join(_) => if pc.Waiting? { JoinStepped(s, c); }
    case Recheck(_, fails) => if pc.Rechecking? { RecheckStepped(s, c, fails); }
    case LoadReturn(_, r) => if pc.Loading? { LoadStepped(s, c, r); }
    case Save(_, how) => if pc.Saving? { SaveStepped(s, c, how); }
    case Unregister(_) => if pc.Unregistering? { UnregisterStepped(s, c); }
    case Release(_) => if pc.Releasing? { ReleaseStepped(s, c); }
    case _ =>
  }

  lemma StepFrame(s: State, a: Action)
    requires IsCall(a) && a.c in Next(s, a).calls
    ensures Frame(s, Next(s, a), a.c)
  {
    if a.c in s.calls { CallStepped(s, a, a.c); }
  }

  /** A flight stays alive through every step, and does not change once finished. */
  lemma FlightAliveStep(s: State, a: Action, key: string, leader: nat)
    requires Inv(s) && FlightAlive(s, key, leader)
    ensures FlightAlive(Next(s, a), key, leader)
    ensures s.slots[leader].done ==> Next(s, a).slots[leader] == s.slots[leader]
  {
    assert CallOk(s, leader);
    var s' := Next(s, a);
    if IsCall(a) && a.c in s'.calls {
      StepFrame(s, a);
      if a.c == leader { LeaderAlive(s, a); }
    } else {
      assert s'.calls == s.calls && s'.slots == s.slots;
    }
  }

  /** A leader's step leaves its flight alive. */
  lemma LeaderAlive(s: State, a: Action)
    requires IsCall(a) && a.c in s.calls && CallOk(s, a.c) && FlightAlive(s, s.calls[a.c].key, a.c)
    ensures FlightAlive(Next(s, a), s.calls[a.c].key, a.c)
    ensures s.slots[a.c].done ==> Next(s, a).slots[a.c] == s.slots[a.c]
  {
  }

  predicate JoinsAlive(s: State, c: nat)
    requires c in s.calls
  {
    var Call(key, pc) := s.calls[c];
    && (pc.Waiting? ==> FlightAlive(s, key, pc.leader))
    && (pc.Returned? && pc.joined.Some? ==>
          FlightAlive(s, key, pc.joined.value) && s.slots[pc.joined.value] == Flight(pc.outcome, true))
  }

  lemma BystanderOk(s: State, s': State, who: nat, c: nat)
    requires Inv(s) && Frame(s, s', who) && c in s.calls && c != who && JoinsAlive(s', c)
    ensures CallOk(s', c)
  {
    assert CallOk(s, c);
    if who in s.calls { assert CallOk(s, who); }
  }

  lemma BystanderStep(s: State, a: Action, c: nat)
    requires Inv(s) && IsCall(a) && c in s.calls && c != a.c && a.c in Next(s, a).calls
    ensures CallOk(Next(s, a), c)
  {
    assert CallOk(s, c);
    StepFrame(s, a);
    var Call(key, pc) := s.calls[c];
    if pc.Waiting? { FlightAliveStep(s, a, key, pc.leader); }
    if pc.Returned? && pc.joined.Some? { FlightAliveStep(s, a, key, pc.joined.value); }
    BystanderOk(s, Next(s, a), a.c, c);
  }

  /** A registering call attaches to a live flight, or leads one of its own. */
  lemma RegisterOk(s: State, c: nat)
    requires Inv(s) && c in s.calls && s.calls[c].pc.Registering?
    ensures CallOk(OnRegister(s, c), c)
  {
    assert CallOk(s, c);
    var key := s.calls[c].key;
    if key in s.flights { assert CallOk(s, s.flights[key]); }
  }

  lemma JoinOk(s: State, c: nat)
    requires CallOk(s, c) && s.calls[c].pc.Waiting?
    ensures CallOk(OnJoin(s, c), c)
  {
  }

  lemma RecheckOk(s: State, c: nat, fails: bool)
    requires CallOk(s, c) && s.calls[c].pc.Rechecking?
    ensures CallOk(OnRecheck(s, c, fails), c)
  {
  }

  lemma LoadOk(s: State, c: nat, r: Outcome)
    requires CallOk(s, c) && s.calls[c].pc.Loading?
    ensures CallOk(OnLoad(s, c, r), c)
  {
  }

  lemma SaveOk(s: State, c: nat, how: Saved)
    requires CallOk(s, c) && s.calls[c].pc.Saving?
    ensures CallOk(OnSave(s, c, how), c)
  {
  }

  lemma CleanUpOk(s: State, c: nat)
    requires CallOk(s, c)
    ensures s.calls[c].pc.Unregistering? ==> CallOk(OnUnregister(s, c), c)
    ensures s.calls[c].pc.Releasing? ==> CallOk(OnRelease(s, c), c)
  {
  }

  /** Every step leaves the acting call in order. */
  lemma ActorOk(s: State, a: Action, c: nat)
    requires Inv(s) && c in s.calls
    ensures CallOk(CallStep(s, a, c), c)
  {
    assert CallOk(s, c);
    var pc := s.calls[c].pc;
    match a
    case Register(_) => if pc.Registering? { RegisterOk(s, c); }
    case Join(_) => if pc.Waiting? { JoinOk(s, c); }
    case Recheck(_, fails) => if pc.Rechecking? { RecheckOk(s, c, fails); }
    case LoadReturn(_, r) => if pc.Loading? { LoadOk(s, c, r); }
    case Save(_, how) => if pc.Saving? { SaveOk(s, c, how); }
    case Unregister(_) => CleanUpOk(s, c);
    case Release(_) => CleanUpOk(s, c);
    case _ =>
  }

  /** A call that has just been made is in order. */
  lemma InvokeOk(s: State, c: nat, key: string)
    requires Inv(s) && c !in s.calls
    ensures CallOk(Next(s, Invoke(c, key)), c)
  {
  }

  lemma FlightsOk(s: State, s': State, who: nat)
    requires Inv(s) && Frame(s, s', who) && CallOk(s', who)
    ensures forall k :: k in s'.flights ==>
      s'.flights[k] in s'.calls && s'.calls[s'.flights[k]].key == k && Leading(s'.calls[s'.flights[k]].pc)
    ensures s'.slots.Keys <= s'.calls.Keys
  {
    if who in s.calls { assert CallOk(s, who); }
  }

  lemma NextInv(s: State, a: Action)
    requires Inv(s)
    ensures Inv(Next(s, a))
  {
    var s' := Next(s, a);
    if IsCall(a) && a.c in s'.calls {
      StepFrame(s, a);
      if a.c in s.calls { ActorOk(s, a, a.c); } else { InvokeOk(s, a.c, a.key); }
      FlightsOk(s, s', a.c);
      forall c | c in s'.calls && c != a.c ensures CallOk(s', c) {
        BystanderStep(s, a, c);
      }
    } else {
      StoreOnly(s, a);
    }
  }

  lemma StoreOnly(s: State, a: Action)
    requires Inv(s) && !(IsCall(a) && a.c in Next(s, a).calls)
    ensures Inv(Next(s, a))
  {
    StoreOnlyInv(s, Next(s, a));
  }

  lemma StoreOnlyInv(s: State, s': State)
    requires Inv(s) && s' == s.(store := s'.store)
    ensures Inv(s')
  {
    forall c | c in s'.calls ensures CallOk(s', c) {
      assert CallOk(s, c);
    }
  }

  lemma {:induction false} ExecInv(s: State, run: seq<Action>)
    requires Inv(s)
    ensures Inv(Exec(s, run))
    decreases |run|
  {
    if run != [] {
      NextInv(s, run[0]);
      ExecInv(Next(s, run[0]), run[1..]);
    }
  }
}
