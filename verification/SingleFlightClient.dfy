/** The caching `Client` object, whose GetOrLoad updates the flight map and the
    flight outcomes in place while other calls run. Each critical section is proved
    to be one step of the transition system, and GetOrLoad to be a run of it. */
module SingleFlightClient {
  import opened Common
  import opened SingleFlight
  import opened SingleFlightTheorems

  /** Steps of everybody but call `c`. */
  predicate Foreign(c: nat, a: Action) {
    IsCall(a) ==> a.c != c
  }

  predicate AllForeign(c: nat, env: seq<Action>) {
    forall i :: 0 <= i < |env| ==> Foreign(c, env[i])
  }

  lemma {:induction false} ForeignRun(s: State, env: seq<Action>, c: nat)
    requires Inv(s) && c in s.calls && AllForeign(c, env)
    ensures Inv(Exec(s, env)) && c in Exec(s, env).calls && Exec(s, env).calls[c] == s.calls[c]
    decreases |env|
  {
    if env != [] {
      NextInv(s, env[0]);
      ForeignStep(s, env[0], c);
      ForeignRun(Next(s, env[0]), env[1..], c);
    }
  }

  lemma ForeignStep(s: State, a: Action, c: nat)
    requires Inv(s) && c in s.calls && Foreign(c, a)
    ensures c in Next(s, a).calls && Next(s, a).calls[c] == s.calls[c]
  {
    if IsCall(a) && a.c in Next(s, a).calls { StepFrame(s, a); }
  }

  /** What the world does around the steps of one call, and how its reads, its load
      and its write turn out. */
  datatype Turns = Turns(
    beforeProbe: seq<Action>, probeFails: bool,
    beforeRegister: seq<Action>, whileWaiting: seq<Action>,
    beforeRecheck: seq<Action>, recheckFails: bool,
    whileLoading: seq<Action>, loaded: Outcome,
    beforeSave: seq<Action>, saved: Saved,
    beforeUnregister: seq<Action>, beforeRelease: seq<Action>)

  predicate TurnsOk(c: nat, t: Turns) {
    && AllForeign(c, t.beforeProbe) && AllForeign(c, t.beforeRegister) && AllForeign(c, t.whileWaiting)
    && AllForeign(c, t.beforeRecheck) && AllForeign(c, t.whileLoading) && AllForeign(c, t.beforeSave)
    && AllForeign(c, t.beforeUnregister) && AllForeign(c, t.beforeRelease)
  }

  /** How a call came by its outcome: a hit of the fast path, another call's flight, or
      a flight of its own, which finds the value on the second look or loads it. */
  datatype Path = Hit | Attach(leader: nat) | Led(found: bool)

  /** The log when a call that was made after `log` first reads the cache. */
  function BeforeProbe(log: seq<Action>, c: nat, key: string, t: Turns): seq<Action> {
    log + [Invoke(c, key)] + t.beforeProbe
  }

  /** The log once it has registered. */
  function AfterRegister(log: seq<Action>, c: nat, key: string, t: Turns): seq<Action> {
    BeforeProbe(log, c, key, t) + [Probe(c, t.probeFails)] + t.beforeRegister + [Register(c)]
  }

  /** The log of a leader's steps: the second look, then, unless it finds the value, the
      load and, if that succeeds, the write; last the flight is taken off the map, and
      only then its waiters are released. */
  function LeadLog(log: seq<Action>, c: nat, t: Turns, found: bool): seq<Action> {
    var looked := log + t.beforeRecheck + [Recheck(c, t.recheckFails)];
    var loaded := if found then looked else looked + t.whileLoading + [LoadReturn(c, t.loaded)];
    var saved := if found || t.loaded.err.Some? then loaded else loaded + t.beforeSave + [Save(c, t.saved)];
    CleanUpLog(saved, c, t)
  }

  function CleanUpLog(log: seq<Action>, c: nat, t: Turns): seq<Action> {
    log + t.beforeUnregister + [Unregister(c)] + t.beforeRelease + [Action.Release(c)]
  }

  /** The log of one call. */
  function CallLog(log: seq<Action>, c: nat, key: string, t: Turns, path: Path): seq<Action> {
    match path
    case Hit => BeforeProbe(log, c, key, t) + [Probe(c, t.probeFails)]
    case Attach(_) => AfterRegister(log, c, key, t) + t.whileWaiting + [Join(c)]
    case Led(found) => LeadLog(AfterRegister(log, c, key, t), c, t, found)
  }

  /** `o` is what the cache held for `key` after `log`. */
  predicate CachedAfter(start: State, log: seq<Action>, key: string, o: Outcome) {
    var store := Exec(start, log).store;
    o.err.None? && key in store && store[key] == o.val
  }

  /** What a leader that loads returns: a failure of the load as it is, a loaded value
      with whatever the write to the cache reported. */
  function LoadOutcome(t: Turns): Outcome {
    if t.loaded.err.Some? then Outcome([], t.loaded.err)
    else Outcome(t.loaded.val, if t.saved.Ok? then None else Some(StoreFailed(t.saved.code)))
  }

  class Client {
    /** The cache. */
    var store: map<string, Bytes>
    /** The flight map, guarded by a mutex in every critical section below. */
    var flights: map<string, nat>
    /** The flightCall objects, by the number of the call that created them. */
    var slots: map<nat, Flight>
    /** Where every call is. */
    var calls: map<nat, Call>

    ghost const start: State
    ghost var log: seq<Action>

    function View(): State
      reads this
    {
      State(store, flights, slots, calls)
    }

    ghost predicate Valid()
      reads this
    {
      Init(start) && View() == Exec(start, log)
    }

    lemma Reachable()
      requires Valid()
      ensures Inv(View())
    {
      InitInv(start);
      ExecInv(start, log);
    }

    constructor (store: map<string, Bytes>)
      ensures Valid() && this.store == store && calls == map[] && log == []
    {
      this.store := store;
      flights := map[];
      slots := map[];
      calls := map[];
      start := State(store, map[], map[], map[]);
      log := [];
    }

    /** Records that the fields have just made the step `a`. */
    ghost method Made(a: Action, before: State)
      requires Init(start) && before == Exec(start, log) && View() == Next(before, a)
      modifies this`log
      ensures Valid() && log == old(log) + [a]
    {
      ExecConcat(start, log, [a]);
      assert [a][1..] == [] && Exec(before, [a]) == Exec(Next(before, a), []);
      log := log + [a];
    }

    /** The rest of the world moves. */
    method Interleave(env: seq<Action>, c: nat)
      requires Valid() && c in calls && AllForeign(c, env)
      modifies this
      ensures Valid() && log == old(log) + env
      ensures c in calls && calls[c] == old(calls[c])
    {
      Reachable();
      ForeignRun(View(), env, c);
      ExecConcat(start, log, env);
      var s := Exec(View(), env);
      store, flights, slots, calls := s.store, s.flights, s.slots, s.calls;
      log := log + env;
    }

    method Enter(c: nat, key: string)
      requires Valid() && c !in calls
      modifies this
      ensures Valid() && log == old(log) + [Invoke(c, key)] && c in calls && calls[c] == Call(key, Probing)
    {
      ghost var before := View();
      calls := calls[c := Call(key, Probing)];
      Made(Invoke(c, key), before);
    }

    /** The unlocked fast path. */
    method FastPath(c: nat, fails: bool) returns (v: Option<Bytes>)
      requires Valid() && c in calls && calls[c].pc.Probing?
      modifies this
      ensures Valid() && log == old(log) + [Probe(c, fails)]
      ensures v == Get(old(View()), old(calls[c].key), fails)
      ensures v.Some? ==> CachedAfter(start, old(log), old(calls[c].key), Outcome(v.value, None))
      ensures c in calls && calls[c] == Call(old(calls[c].key),
                               if v.Some? then Returned(Outcome(v.value, None), None) else Registering)
    {
      ghost var before := View();
      v := Get(View(), calls[c].key, fails);
      calls := calls[c := calls[c].(pc := if v.Some? then Returned(Outcome(v.value, None), None) else Registering)];
      Made(Probe(c, fails), before);
    }

    /** Attach to the flight of the key, or put up a new one. */
    method RegisterOrAttach(c: nat) returns (leader: Option<nat>)
      requires Valid() && c in calls && calls[c].pc.Registering?
      modifies this
      ensures Valid() && log == old(log) + [Register(c)]
      ensures leader == if old(calls[c].key) in old(flights) then Some(old(flights[calls[c].key])) else None
      ensures c in calls && calls[c] == Call(old(calls[c].key),
                               if leader.Some? then Waiting(leader.value) else Rechecking)
    {
      ghost var before := View();
      var key := calls[c].key;
      if key in flights {
        leader := Some(flights[key]);
        calls := calls[c := calls[c].(pc := Waiting(flights[key]))];
      } else {
        leader := None;
        slots := slots[c := Flight(NO_OUTCOME, false)];
        flights := flights[key := c];
        calls := calls[c := calls[c].(pc := Rechecking)];
      }
      Made(Register(c), before);
    }

    /** Waiting is over once the leader has released the flight. */
    method Attached(c: nat, leader: nat) returns (r: Option<Outcome>)
      requires Valid() && c in calls && calls[c].pc == Waiting(leader)
      modifies this
      ensures Valid() && log == old(log) + [Join(c)]
      ensures c in calls && calls[c].key == old(calls[c].key)
      ensures leader in old(slots) && (r.Some? <==> old(slots[leader].done))
      ensures calls[c].pc == if r.Some? then Returned(r.value, Some(leader)) else Waiting(leader)
      ensures r.Some? ==> r.value == old(slots[leader].outcome)
      ensures r.Some? ==> leader != c && leader in calls &&
                          calls[leader] == Call(calls[c].key, Returned(r.value, None))
    {
      ghost var before := View();
      Reachable();
      assert CallOk(View(), c);
      if slots[leader].done {
        r := Some(slots[leader].outcome);
        calls := calls[c := calls[c].(pc := Returned(slots[leader].outcome, Some(leader)))];
      } else {
        r := None;
      }
      Made(Join(c), before);
    }

    /** The second look at the cache, under the flight. */
    method LookAgain(c: nat, fails: bool) returns (v: Option<Bytes>)
      requires Valid() && c in calls && calls[c].pc.Rechecking?
      modifies this
      ensures Valid() && log == old(log) + [Recheck(c, fails)]
      ensures v == Get(old(View()), old(calls[c].key), fails)
      ensures v.Some? ==> CachedAfter(start, old(log), old(calls[c].key), Outcome(v.value, None))
      ensures c in calls && calls[c] == Call(old(calls[c].key),
                               if v.Some? then Unregistering(Outcome(v.value, None)) else Loading)
    {
      ghost var before := View();
      v := Get(View(), calls[c].key, fails);
      if v.Some? {
        slots := slots[c := Flight(Outcome(v.value, None), false)];
        calls := calls[c := calls[c].(pc := Unregistering(Outcome(v.value, None)))];
      } else {
        calls := calls[c := calls[c].(pc := Loading)];
      }
      Made(Recheck(c, fails), before);
    }

    /** `load` has returned. */
    method Loaded(c: nat, result: Outcome)
      requires Valid() && c in calls && calls[c].pc.Loading?
      modifies this
      ensures Valid() && log == old(log) + [LoadReturn(c, result)]
      ensures c in calls && calls[c] == Call(old(calls[c].key),
                               if result.err.Some? then Unregistering(Outcome([], result.err)) else Saving(result.val))
      ensures store == old(store)
    {
      ghost var before := View();
      if result.err.Some? {
        slots := slots[c := Flight(Outcome([], result.err), false)];
        calls := calls[c := calls[c].(pc := Unregistering(Outcome([], result.err)))];
      } else {
        calls := calls[c := calls[c].(pc := Saving(result.val))];
      }
      Made(LoadReturn(c, result), before);
    }

    /** The write to the cache; its failure is surfaced along with the value. */
    method SaveLoaded(c: nat, how: Saved) returns (o: Outcome)
      requires Valid() && c in calls && calls[c].pc.Saving?
      modifies this
      ensures Valid() && log == old(log) + [Save(c, how)]
      ensures o == Outcome(old(calls[c].pc.val), if how.Ok? then None else Some(StoreFailed(how.code)))
      ensures store == if how.LostBefore? then old(store) else old(store)[old(calls[c].key) := o.val]
      ensures c in calls && calls[c] == Call(old(calls[c].key), Unregistering(o))
    {
      ghost var before := View();
      var val := calls[c].pc.val;
      if !how.LostBefore? {
        store := store[calls[c].key := val];
      }
      o := Outcome(val, if how.Ok? then None else Some(StoreFailed(how.code)));
      slots := slots[c := Flight(o, false)];
      calls := calls[c := calls[c].(pc := Unregistering(o))];
      Made(Save(c, how), before);
    }

    /** The deferred clean-up: take the flight off the map, then release waiters. */
    method CleanUp(c: nat, t: Turns)
      requires Valid() && c in calls && calls[c].pc.Unregistering? && TurnsOk(c, t)
      modifies this
      ensures Valid() && log == CleanUpLog(old(log), c, t)
      ensures c in calls && calls[c] == Call(old(calls[c].key), Returned(old(calls[c].pc.result), None))
    {
      Interleave(t.beforeUnregister, c);
      TakeOff(c);
      Interleave(t.beforeRelease, c);
      ReleaseWaiters(c);
    }

    method TakeOff(c: nat)
      requires Valid() && c in calls && calls[c].pc.Unregistering?
      modifies this
      ensures Valid() && log == old(log) + [Unregister(c)] && c in calls
      ensures flights == old(flights) - {old(calls[c].key)}
      ensures c in calls && calls[c] == Call(old(calls[c].key), Releasing(old(calls[c].pc.result)))
    {
      ghost var before := View();
      flights := flights - {calls[c].key};
      calls := calls[c := calls[c].(pc := Releasing(calls[c].pc.result))];
      Made(Unregister(c), before);
    }

    method ReleaseWaiters(c: nat)
      requires Valid() && c in calls && calls[c].pc.Releasing?
      modifies this
      ensures Valid() && log == old(log) + [Action.Release(c)] && c in calls
      ensures c in slots && slots[c] == Flight(old(calls[c].pc.result), true)
      ensures c in calls && calls[c] == Call(old(calls[c].key), Returned(old(calls[c].pc.result), None))
    {
      ghost var before := View();
      Reachable();
      assert CallOk(View(), c);
      slots := slots[c := slots[c].(done := true)];
      calls := calls[c := calls[c].(pc := Returned(calls[c].pc.result, None))];
      Made(Action.Release(c), before);
    }

    /** What the leader of a flight does. It returns what it finds in the cache on the
        second look, or else what the load and the write make of it; in either case its
        flight is off the map before its waiters are released. */
    method Lead(c: nat, t: Turns) returns (o: Outcome, ghost found: bool)
      requires Valid() && c in calls && calls[c].pc.Rechecking? && TurnsOk(c, t)
      modifies this
      ensures Valid() && log == LeadLog(old(log), c, t, found)
      ensures c in calls && calls[c] == Call(old(calls[c].key), Returned(o, None))
      ensures if found then CachedAfter(start, old(log) + t.beforeRecheck, old(calls[c].key), o)
              else o == LoadOutcome(t)
    {
      Interleave(t.beforeRecheck, c);
      var v := LookAgain(c, t.recheckFails);
      found := v.Some?;
      if v.Some? {
        o := Outcome(v.value, None);
        CleanUp(c, t);
      } else {
        Interleave(t.whileLoading, c);
        o := Load(c, t);
        CleanUp(c, t);
      }
    }

    /** `load`, and the write of what it returns. */
    method Load(c: nat, t: Turns) returns (o: Outcome)
      requires Valid() && c in calls && calls[c].pc.Loading? && TurnsOk(c, t)
      modifies this
      ensures Valid() && o == LoadOutcome(t)
      ensures c in calls && calls[c] == Call(old(calls[c].key), Unregistering(o))
      ensures var loaded := old(log) + [LoadReturn(c, t.loaded)];
              log == if t.loaded.err.Some? then loaded else loaded + t.beforeSave + [Save(c, t.saved)]
    {
      Loaded(c, t.loaded);
      if t.loaded.err.Some? {
        return Outcome([], t.loaded.err);
      }
      Interleave(t.beforeSave, c);
      o := SaveLoaded(c, t.saved);
    }

    /** One call. A hit of the fast path is what the cache held then; a leader returns
        what the cache held on its second look, or what its load and write gave; a call
        attached to a flight returns what the flight's leader returns. It returns
        nothing only when the schedule ends before the leader it waits for does. */
    method GetOrLoad(c: nat, key: string, t: Turns) returns (r: Option<Outcome>, ghost path: Path)
      requires Valid() && c !in calls && TurnsOk(c, t)
      modifies this
      ensures Valid() && log == CallLog(old(log), c, key, t, path)
      ensures c in calls && calls[c].key == key
      ensures r.None? ==> path.Attach? && calls[c].pc == Waiting(path.leader)
      ensures r.Some? ==> calls[c].pc == Returned(r.value, if path.Attach? then Some(path.leader) else None)
      ensures path.Hit? ==> r.Some? && CachedAfter(start, BeforeProbe(old(log), c, key, t), key, r.value)
      ensures path == Led(true) ==>
                r.Some? && CachedAfter(start, AfterRegister(old(log), c, key, t) + t.beforeRecheck, key, r.value)
      ensures path == Led(false) ==> r == Some(LoadOutcome(t))
      ensures path.Attach? && r.Some? ==>
                path.leader != c && path.leader in calls && calls[path.leader] == Call(key, Returned(r.value, None))
    {
      Enter(c, key);
      Interleave(t.beforeProbe, c);
      var v := FastPath(c, t.probeFails);
      if v.Some? { return Some(Outcome(v.value, None)), Hit; }
      Interleave(t.beforeRegister, c);
      var leader := RegisterOrAttach(c);
      if leader.Some? {
        path := Attach(leader.value);
        Interleave(t.whileWaiting, c);
        r := Attached(c, leader.value);
      } else {
        var o;
        ghost var found;
        o, found := Lead(c, t);
        r, path := Some(o), Led(found);
      }
    }
  }

  /** The client never has two loads of one key under way. */
  lemma ClientLoadsOnce(client: Client, a: nat, b: nat)
    requires client.Valid() && LoadsKeyOf(client.View(), a, b)
    ensures a == b
  {
    OneLoadAtATime(client.start, client.log, a, b);
  }

  /** What a later read of the cache finds: when a call's load has stored a value, and the
      key was neither removed nor written by anybody since, a hit of a later call is that
      value. `log` is the log up to the later read. */
  lemma LaterHitIsLoaded(start: State, log: seq<Action>, i: nat, c: nat, how: Saved, o: Outcome)
    requires Init(start) && i < |log| && log[i] == Save(c, how) && !how.LostBefore?
    requires var s := Exec(start, log[..i]); c in s.calls && s.calls[c].pc.Saving?
    requires Untouched(Exec(start, log[..i + 1]), log[i + 1..], Exec(start, log[..i]).calls[c].key)
    requires CachedAfter(start, log, Exec(start, log[..i]).calls[c].key, o)
    ensures o == Outcome(Exec(start, log[..i]).calls[c].pc.val, None)
  {
    var s := Exec(start, log[..i]);
    var key, val := s.calls[c].key, s.calls[c].pc.val;
    assert log[..i + 1] == log[..i] + [Save(c, how)];
    ExecConcat(start, log[..i], [Save(c, how)]);
    SaveCaches(s, c, how);
    assert Exec(start, log[..i + 1]) == Exec(s, [Save(c, how)]);
    OneStep(s, Save(c, how));
    ValueStays(Exec(start, log[..i + 1]), log[i + 1..], key, val);
    ExecConcat(start, log[..i + 1], log[i + 1..]);
    assert log == log[..i + 1] + log[i + 1..];
  }

  /** The same for the calls of a client that load and store a value: a hit of the fast
      path of a later call, or of its second look, returns what the load returned. */
  lemma ClientHitIsLoaded(client: Client, i: nat, c: nat, how: Saved, j: nat, c': nat)
    requires client.Valid() && i < j < |client.log|
    requires client.log[i] == Save(c, how) && !how.LostBefore?
    requires client.log[j] == Probe(c', false) || client.log[j] == Recheck(c', false)
    requires var s := Exec(client.start, client.log[..i]); c in s.calls && s.calls[c].pc.Saving?
    requires var s := Exec(client.start, client.log[..j]);
      c' in s.calls && s.calls[c'].key == Exec(client.start, client.log[..i]).calls[c].key &&
      (if client.log[j].Probe? then s.calls[c'].pc.Probing? else s.calls[c'].pc.Rechecking?)
    requires Untouched(Exec(client.start, client.log[..i + 1]), client.log[i + 1..j],
                       Exec(client.start, client.log[..i]).calls[c].key)
    ensures var o := Outcome(Exec(client.start, client.log[..i]).calls[c].pc.val, None);
            var s' := Next(Exec(client.start, client.log[..j]), client.log[j]);
      s'.calls[c'].pc == if client.log[j].Probe? then Returned(o, None) else Unregistering(o)
  {
    var log := client.log[..j];
    var s := Exec(client.start, log[..i]);
    assert log[..i] == client.log[..i] && log[..i + 1] == client.log[..i + 1];
    assert log[i + 1..] == client.log[i + 1..j];
    assert log[..i + 1] == log[..i] + [Save(c, how)];
    ExecConcat(client.start, log[..i], [Save(c, how)]);
    OneStep(s, Save(c, how));
    SaveCaches(s, c, how);
    ValueStays(Exec(client.start, log[..i + 1]), log[i + 1..], s.calls[c].key, s.calls[c].pc.val);
    ExecConcat(client.start, log[..i + 1], log[i + 1..]);
    assert log == log[..i + 1] + log[i + 1..];
    ReadFinds(Exec(client.start, log), c', s.calls[c].key, s.calls[c].pc.val);
  }

  /** When a call of the client loads a key that an earlier call has loaded and stored,
      then, if no read of the cache failed since, the key was removed since. */
  lemma ClientReloadsAfterRemoval(client: Client, i: nat, c: nat, how: Saved, c': nat)
    requires client.Valid() && i < |client.log| && client.log[i] == Save(c, how) && !how.LostBefore?
    requires var s := Exec(client.start, client.log[..i]); c in s.calls && s.calls[c].pc.Saving?
    requires c' in client.calls && LoadUnderWay(client.calls[c'].pc)
    requires client.calls[c'].key == Exec(client.start, client.log[..i]).calls[c].key
    requires forall j :: i < j < |client.log| ==> ReadsSucceed(client.log[j])
    ensures exists j :: i < j < |client.log| && client.log[j] == Remove(client.calls[c'].key)
  {
    var before, between := client.log[..i], client.log[i + 1..];
    var s := Exec(client.start, before);
    assert client.log == before + ([Save(c, how)] + between);
    ExecConcat(client.start, before, [Save(c, how)] + between);
    assert ([Save(c, how)] + between)[1..] == between;
    assert client.View() == Exec(Next(s, Save(c, how)), between);
    forall j | 0 <= j < |between| ensures ReadsSucceed(between[j]) {
      assert between[j] == client.log[i + 1 + j];
    }
    SecondLoadNeedsRemoval(client.start, before, c, how, between, c');
    var j :| 0 <= j < |between| && between[j] == Remove(client.calls[c'].key);
    assert client.log[i + 1 + j] == Remove(client.calls[c'].key);
  }
}
