/** What single-flight loading guarantees over whole runs: one load at a time, one
    load per stored value, the leader's outcome for every joiner, and progress. */
module SingleFlightTheorems {
  import opened Common
  import opened SingleFlight

  // ---------------------------------------------------------------- one load at a time

  /** Both calls have a load under way, for the same key. */
  predicate LoadsKeyOf(s: State, a: nat, b: nat) {
    && a in s.calls && b in s.calls && s.calls[a].key == s.calls[b].key
    && LoadUnderWay(s.calls[a].pc) && LoadUnderWay(s.calls[b].pc)
  }

  /** No two loads of one key are ever under way together. */
  lemma OneLoadAtATime(s: State, run: seq<Action>, a: nat, b: nat)
    requires Init(s)
    ensures var s' := Exec(s, run);
      LoadsKeyOf(s', a, b) ==> a == b
  {
    InitInv(s);
    ExecInv(s, run);
    var s' := Exec(s, run);
    if a in s'.calls && b in s'.calls {
      assert CallOk(s', a) && CallOk(s', b);
    }
  }

  // ---------------------------------------------------------------- one load per stored value

  /** `key` is cached and nobody is loading it. */
  predicate Settled(s: State, key: string) {
    key in s.store && forall c :: c in s.calls && s.calls[c].key == key ==> !LoadUnderWay(s.calls[c].pc)
  }

  predicate ReadsSucceed(a: Action) {
    (a.Probe? ==> !a.fails) && (a.Recheck? ==> !a.fails)
  }

  /** A load whose value reaches the cache leaves its key settled. */
  lemma SaveSettles(s: State, c: nat, how: Saved)
    requires Inv(s) && c in s.calls && s.calls[c].pc.Saving? && !how.LostBefore?
    ensures Settled(Next(s, Save(c, how)), s.calls[c].key)
  {
    forall o | o in s.calls && s.calls[o].key == s.calls[c].key && LoadUnderWay(s.calls[o].pc) ensures o == c {
      assert CallOk(s, o) && CallOk(s, c);
    }
  }

  /** A cached key stays cached until it is removed. */
  lemma StaysCached(s: State, a: Action, key: string)
    requires key in s.store && a != Remove(key)
    ensures key in Next(s, a).store
  {
  }

  /** A load starts only for a key that is not cached when its leader looks again. */
  lemma LoadStarts(s: State, a: Action)
    requires Inv(s) && IsCall(a) && ReadsSucceed(a) && a.c in Next(s, a).calls
    requires LoadUnderWay(Next(s, a).calls[a.c].pc)
    ensures a.c in s.calls && (LoadUnderWay(s.calls[a.c].pc) || s.calls[a.c].key !in s.store)
  {
  }

  /** Only removing the key unsettles it: a new leader finds the value when it looks
      again under its flight. */
  lemma SettledStep(s: State, a: Action, key: string)
    requires Inv(s) && Settled(s, key) && a != Remove(key) && ReadsSucceed(a)
    ensures Settled(Next(s, a), key)
  {
    StaysCached(s, a, key);
    if IsCall(a) && a.c in Next(s, a).calls {
      StepFrame(s, a);
      if LoadUnderWay(Next(s, a).calls[a.c].pc) { LoadStarts(s, a); }
      SettledFrame(s, Next(s, a), a.c, key);
    }
  }

  lemma SettledFrame(s: State, s': State, who: nat, key: string)
    requires Frame(s, s', who) && Settled(s, key) && key in s'.store
    requires LoadUnderWay(s'.calls[who].pc) ==>
               who in s.calls && (LoadUnderWay(s.calls[who].pc) || s.calls[who].key !in s.store)
    ensures Settled(s', key)
  {
  }

  lemma {:induction false} StaysSettled(s: State, run: seq<Action>, key: string)
    requires Inv(s) && Settled(s, key)
    requires forall i :: 0 <= i < |run| ==> run[i] != Remove(key) && ReadsSucceed(run[i])
    ensures Inv(Exec(s, run)) && Settled(Exec(s, run), key)
    decreases |run|
  {
    if run != [] {
      SettledStep(s, run[0], key);
      NextInv(s, run[0]);
      StaysSettled(Next(s, run[0]), run[1..], key);
    }
  }

  // ---------------------------------------------------------------- the value cached

  predicate Holds(s: State, key: string, val: Bytes) {
    key in s.store && s.store[key] == val
  }

  /** A load that reaches the cache puts its value there, and touches no other key. */
  lemma SaveCaches(s: State, c: nat, how: Saved)
    requires c in s.calls && s.calls[c].pc.Saving?
    ensures var s' := Next(s, Save(c, how));
      && (!how.LostBefore? ==> Holds(s', s.calls[c].key, s.calls[c].pc.val))
      && (how.LostBefore? ==> s'.store == s.store)
      && (forall k :: k != s.calls[c].key ==> (k in s'.store <==> k in s.store))
      && (forall k :: k in s.store && k != s.calls[c].key ==> s'.store[k] == s.store[k])
  {
  }

  /** Nobody else's value gets into the cache: a step changes a key only by removing it,
      by a write from outside, or by a load's own write. */
  predicate Touches(s: State, a: Action, key: string) {
    || a == Remove(key) || (a.Put? && a.key == key)
    || (a.Save? && a.c in s.calls && s.calls[a.c].key == key && s.calls[a.c].pc.Saving? && !a.how.LostBefore?)
  }

  predicate Untouched(s: State, run: seq<Action>, key: string)
    decreases |run|
  {
    run == [] || (!Touches(s, run[0], key) && Untouched(Next(s, run[0]), run[1..], key))
  }

  lemma UntouchedStep(s: State, a: Action, key: string)
    requires !Touches(s, a, key)
    ensures key in Next(s, a).store <==> key in s.store
    ensures key in s.store ==> Next(s, a).store[key] == s.store[key]
  {
  }

  /** A cached value stays until its key is touched. */
  lemma {:induction false} ValueStays(s: State, run: seq<Action>, key: string, val: Bytes)
    requires Holds(s, key, val) && Untouched(s, run, key)
    ensures Holds(Exec(s, run), key, val)
    decreases |run|
  {
    if run != [] {
      UntouchedStep(s, run[0], key);
      ValueStays(Next(s, run[0]), run[1..], key, val);
    }
  }

  /** A settled key is not loaded again, so only a removal or a write from outside
      touches it. */
  lemma {:induction false} SettledIsUntouched(s: State, run: seq<Action>, key: string)
    requires Inv(s) && Settled(s, key)
    requires forall i :: 0 <= i < |run| ==>
               ReadsSucceed(run[i]) && run[i] != Remove(key) && !(run[i].Put? && run[i].key == key)
    ensures Untouched(s, run, key)
    decreases |run|
  {
    if run != [] {
      SettledStep(s, run[0], key);
      NextInv(s, run[0]);
      SettledIsUntouched(Next(s, run[0]), run[1..], key);
    }
  }

  /** A read that succeeds finds the cached value, and the call returns it: at once, or
      as the leader of its flight. */
  lemma ReadFinds(s: State, c: nat, key: string, val: Bytes)
    requires Holds(s, key, val) && c in s.calls && s.calls[c].key == key
    ensures s.calls[c].pc.Probing? ==> Next(s, Probe(c, false)).calls[c].pc == Returned(Outcome(val, None), None)
    ensures s.calls[c].pc.Rechecking? ==> Next(s, Recheck(c, false)).calls[c].pc == Unregistering(Outcome(val, None))
  {
  }

  /** A read that misses, or fails, sends the call on to register or to load. */
  lemma ReadMisses(s: State, c: nat, fails: bool)
    requires c in s.calls && (fails || s.calls[c].key !in s.store)
    ensures s.calls[c].pc.Probing? ==> Next(s, Probe(c, fails)).calls[c].pc == Registering
    ensures s.calls[c].pc.Rechecking? ==> Next(s, Recheck(c, fails)).calls[c].pc == Loading
  {
  }

  /** The removal in SecondLoadNeedsRemoval is also enough: a leader that looks again
      after it loads again. A value written from outside is found like a loaded one. */
  lemma RemovalReloads(s: State, c: nat, val: Bytes)
    requires c in s.calls && s.calls[c].pc.Rechecking?
    ensures var key := s.calls[c].key;
      && Next(Next(s, Remove(key)), Recheck(c, false)).calls[c].pc == Loading
      && Next(Next(s, Put(key, val)), Recheck(c, false)).calls[c].pc == Unregistering(Outcome(val, None))
  {
    ReadMisses(Next(s, Remove(s.calls[c].key)), c, false);
    ReadFinds(Next(s, Put(s.calls[c].key, val)), c, s.calls[c].key, val);
  }

  lemma OneStep(s: State, a: Action)
    ensures Exec(s, [a]) == Next(s, a)
  {
    assert [a][1..] == [];
    assert Exec(Next(s, a), []) == Next(s, a);
  }

  // ---------------------------------------------------------------- at most once

  /** At most once: between a load of a key that reached the cache and any later load
      of the same key under way, the key was removed from the cache. */
  lemma SecondLoadNeedsRemoval(s: State, before: seq<Action>, c: nat, how: Saved, between: seq<Action>, c': nat)
    requires Init(s)
    requires var s1 := Exec(s, before); c in s1.calls && s1.calls[c].pc.Saving? && !how.LostBefore?
    requires var s2 := Exec(Next(Exec(s, before), Save(c, how)), between);
             c' in s2.calls && LoadUnderWay(s2.calls[c'].pc) && s2.calls[c'].key == Exec(s, before).calls[c].key
    requires forall i :: 0 <= i < |between| ==> ReadsSucceed(between[i])
    ensures exists i :: 0 <= i < |between| && between[i] == Remove(Exec(s, before).calls[c].key)
  {
    InitInv(s);
    ExecInv(s, before);
    var s1 := Exec(s, before);
    var key := s1.calls[c].key;
    SaveSettles(s1, c, how);
    NextInv(s1, Save(c, how));
    if forall i :: 0 <= i < |between| ==> between[i] != Remove(key) {
      StaysSettled(Next(s1, Save(c, how)), between, key);
      assert false;
    }
  }

  // ---------------------------------------------------------------- sharing

  /** A joiner returns exactly the outcome its leader returns, for the same key. */
  lemma JoinersShareTheOutcome(s: State, run: seq<Action>, c: nat)
    requires Init(s)
    ensures var s' := Exec(s, run);
      c in s'.calls && s'.calls[c].pc.Returned? && s'.calls[c].pc.joined.Some? ==>
        var leader := s'.calls[c].pc.joined.value;
        leader in s'.calls && leader != c && s'.calls[leader].key == s'.calls[c].key &&
        s'.calls[leader].pc == Returned(s'.calls[c].pc.outcome, None)
  {
    InitInv(s);
    ExecInv(s, run);
    var s' := Exec(s, run);
    if c in s'.calls {
      assert CallOk(s', c);
    }
  }

  // ---------------------------------------------------------------- progress

  /** The step a call takes next when everything it calls succeeds. */
  function OwnStep(c: nat, pc: Pc): Action
    requires !pc.Returned?
  {
    match pc
    case Probing => Probe(c, false)
    case Registering => Register(c)
    case Waiting(_) => Join(c)
    case Rechecking => Recheck(c, false)
    case Loading => LoadReturn(c, NO_OUTCOME)
    case Saving(_) => Save(c, Ok)
    case Unregistering(_) => Unregister(c)
    case Releasing(_) => Release(c)
  }

  function RankOf(s: State, c: nat): nat {
    if c in s.calls then Rank(s.calls[c].pc) else 8
  }

  /** Every step leaves a call where it was or brings it closer to its return. */
  lemma StepsLowerRank(s: State, a: Action, c: nat)
    requires Inv(s) && c in s.calls
    ensures c in Next(s, a).calls
    ensures Next(s, a).calls[c] == s.calls[c] || RankOf(Next(s, a), c) < RankOf(s, c)
  {
    if IsCall(a) && a.c in Next(s, a).calls {
      StepFrame(s, a);
      if a.c == c { CallStepped(s, a, c); }
    }
  }

  /** No deadlock: while some call has not returned, its own step or that of the
      leader it waits for moves on; that leader is not itself waiting. */
  lemma SomeCallMoves(s: State, c: nat) returns (mover: nat)
    requires Inv(s) && c in s.calls && !s.calls[c].pc.Returned?
    ensures mover in s.calls
    ensures mover == c || (s.calls[c].pc == Waiting(mover) && !s.calls[mover].pc.Waiting?)
    ensures !s.calls[mover].pc.Returned?
    ensures RankOf(Next(s, OwnStep(mover, s.calls[mover].pc)), mover) < RankOf(s, mover)
  {
    assert CallOk(s, c);
    var pc := s.calls[c].pc;
    mover := if pc.Waiting? && !s.slots[pc.leader].done then pc.leader else c;
    OwnStepMoves(s, mover);
  }

  lemma OwnStepMoves(s: State, c: nat)
    requires Inv(s) && c in s.calls && !s.calls[c].pc.Returned?
    requires s.calls[c].pc.Waiting? ==> s.slots.Keys >= {s.calls[c].pc.leader} && s.slots[s.calls[c].pc.leader].done
    ensures RankOf(Next(s, OwnStep(c, s.calls[c].pc)), c) < RankOf(s, c)
  {
    assert CallOk(s, c);
    var a := OwnStep(c, s.calls[c].pc);
    CallStepped(s, a, c);
    OwnStepChanges(s, c);
  }

  lemma OwnStepChanges(s: State, c: nat)
    requires c in s.calls && CallOk(s, c) && !s.calls[c].pc.Returned?
    requires s.calls[c].pc.Waiting? ==> s.slots.Keys >= {s.calls[c].pc.leader} && s.slots[s.calls[c].pc.leader].done
    ensures CallStep(s, OwnStep(c, s.calls[c].pc), c) != s
  {
    var s' := CallStep(s, OwnStep(c, s.calls[c].pc), c);
    assert s'.calls[c].pc != s.calls[c].pc;
  }

  predicate AllReturned(s: State) {
    forall c :: c in s.calls ==> s.calls[c].pc.Returned?
  }

  lemma QuietNoFlights(s: State)
    requires Inv(s) && AllReturned(s)
    ensures s.flights == map[]
  {
    assert s.flights.Keys == {};
  }

  /** When every call has returned no flight is left registered. */
  lemma QuietMeansNoFlights(s: State, run: seq<Action>)
    requires Init(s) && AllReturned(Exec(s, run))
    ensures Exec(s, run).flights == map[]
  {
    InitInv(s);
    ExecInv(s, run);
    QuietNoFlights(Exec(s, run));
  }

  /** The steps all calls below number `n` have left at most. */
  function StepsLeft(s: State, n: nat): nat {
    if n == 0 then 0
    else StepsLeft(s, n - 1) + if n - 1 in s.calls then Rank(s.calls[n - 1].pc) else 0
  }

  predicate NumberedBelow(s: State, n: nat) {
    forall c :: c in s.calls ==> c < n
  }

  lemma {:induction false} FewerStepsLeft(s: State, s': State, n: nat, mover: nat)
    requires mover in s.calls && s'.calls.Keys == s.calls.Keys
    requires Rank(s'.calls[mover].pc) < Rank(s.calls[mover].pc)
    requires forall c :: c in s.calls && c != mover ==> s'.calls[c] == s.calls[c]
    ensures StepsLeft(s', n) <= StepsLeft(s, n) && (mover < n ==> StepsLeft(s', n) < StepsLeft(s, n))
    decreases n
  {
    if n > 0 { FewerStepsLeft(s, s', n - 1, mover); }
  }

  lemma {:induction false} SomeBound(calls: set<nat>) returns (n: nat)
    ensures forall c :: c in calls ==> c < n
    decreases |calls|
  {
    if calls == {} {
      n := 0;
    } else {
      var c :| c in calls;
      var m := SomeBound(calls - {c});
      n := if m <= c then c + 1 else m;
      forall x | x in calls ensures x < n {
        if x != c { assert x in calls - {c}; }
      }
    }
  }

  /** A step a call takes of its own. */
  predicate OwnSteps(run: seq<Action>) {
    forall i :: 0 <= i < |run| ==> IsCall(run[i]) && !run[i].Invoke?
  }

  lemma FewerAfterStep(s: State, s': State, n: nat, mover: nat)
    requires NumberedBelow(s, n) && Stepped(s, s', mover) && RankOf(s', mover) < RankOf(s, mover)
    ensures NumberedBelow(s', n) && s'.calls.Keys == s.calls.Keys && StepsLeft(s', n) < StepsLeft(s, n)
  {
    FewerStepsLeft(s, s', n, mover);
  }

  /** While a call has not returned, some call has a step that leaves fewer. */
  lemma OneMove(s: State, n: nat, c: nat) returns (a: Action, s': State)
    requires Inv(s) && NumberedBelow(s, n) && c in s.calls && !s.calls[c].pc.Returned?
    ensures s' == Next(s, a) && IsCall(a) && !a.Invoke?
    ensures Inv(s') && NumberedBelow(s', n) && s'.calls.Keys == s.calls.Keys && StepsLeft(s', n) < StepsLeft(s, n)
  {
    var mover := SomeCallMoves(s, c);
    a := OwnStep(mover, s.calls[mover].pc);
    s' := Next(s, a);
    NextInv(s, a);
    CallStepped(s, a, mover);
    FewerAfterStep(s, s', n, mover);
  }

  lemma OneStepFirst(s: State, a: Action, rest: seq<Action>)
    requires OwnSteps(rest) && IsCall(a) && !a.Invoke?
    ensures Exec(s, [a] + rest) == Exec(Next(s, a), rest) && OwnSteps([a] + rest)
  {
    assert ([a] + rest)[1..] == rest;
  }

  lemma {:induction false} FinishAll(s: State, n: nat) returns (run: seq<Action>)
    requires Inv(s) && NumberedBelow(s, n)
    ensures var s' := Exec(s, run);
      Inv(s') && s'.calls.Keys == s.calls.Keys && AllReturned(s') && OwnSteps(run) && |run| <= StepsLeft(s, n)
    decreases StepsLeft(s, n)
  {
    if AllReturned(s) {
      run := [];
    } else {
      var c :| c in s.calls && !s.calls[c].pc.Returned?;
      var a, s1 := OneMove(s, n, c);
      var rest := FinishAll(s1, n);
      run := [a] + rest;
      OneStepFirst(s, a, rest);
    }
  }

  /** From every reachable state, steps of the calls alone bring every call to its
      return, and then no flight is left. */
  lemma EveryCallCanReturn(s: State) returns (run: seq<Action>)
    requires Inv(s)
    ensures var s' := Exec(s, run);
      s'.calls.Keys == s.calls.Keys && AllReturned(s') && s'.flights == map[] && OwnSteps(run)
  {
    var n := SomeBound(s.calls.Keys);
    run := FinishAll(s, n);
    QuietNoFlights(Exec(s, run));
  }
}
