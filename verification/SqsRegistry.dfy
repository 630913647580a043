/** The listener registry of the SQS provider as a value: which listeners are listed
    under which host, which were ever added, and which the registry has cancelled. */
module SqsRegistry {

  /** A registered listener; `id` stands for its cancel function. */
  datatype Entry = Entry(id: nat, name: string)

  datatype Added = Added(host: string, entry: Entry)

  datatype Registry = Registry(
    lists: map<string, seq<Entry>>,
    added: seq<Added>,
    cancelled: multiset<nat>)

  datatype Op =
    | Add(host: string, name: string)
    | RemoveAll(host: string)
    | RemoveNamed(host: string, name: string)
    | Close

  function Ids(es: seq<Entry>): seq<nat> {
    if es == [] then [] else Ids(es[..|es| - 1]) + [es[|es| - 1].id]
  }

  function Pick(e: Entry, name: string, with: bool): seq<Entry> {
    if (e.name == name) == with then [e] else []
  }

  /** The entries with, or without, a name, in order. */
  function Named(es: seq<Entry>, name: string, with: bool): seq<Entry> {
    if es == [] then [] else Named(es[..|es| - 1], name, with) + Pick(es[|es| - 1], name, with)
  }

  function ListOf(lists: map<string, seq<Entry>>, host: string): seq<Entry> {
    if host in lists then lists[host] else []
  }

  function ListedIds(lists: map<string, seq<Entry>>): set<nat> {
    set h, i | h in lists && 0 <= i < |lists[h]| :: lists[h][i].id
  }

  /** A list without entries is not kept. */
  function WithList(lists: map<string, seq<Entry>>, host: string, es: seq<Entry>): map<string, seq<Entry>> {
    if es == [] then lists - {host} else lists[host := es]
  }

  function WithoutHost(r: Registry, host: string): Registry {
    r.(lists := r.lists - {host}, cancelled := r.cancelled + multiset(Ids(ListOf(r.lists, host))))
  }

  function WithoutNamed(r: Registry, host: string, name: string): Registry {
    if host !in r.lists then r
    else r.(lists := WithList(r.lists, host, Named(r.lists[host], name, false)),
            cancelled := r.cancelled + multiset(Ids(Named(r.lists[host], name, true))))
  }

  function Apply(r: Registry, op: Op): Registry {
    match op
    case Add(host, name) =>
      var e := Entry(|r.added|, name);
      r.(lists := r.lists[host := ListOf(r.lists, host) + [e]], added := r.added + [Added(host, e)])
    case RemoveAll(host) => WithoutHost(r, host)
    case RemoveNamed(host, name) => WithoutNamed(r, host, name)
    case Close => r.(lists := map[], cancelled := r.cancelled + multiset(ListedIds(r.lists)))
  }

  const EMPTY: Registry := Registry(map[], [], multiset{})

  function Run(r: Registry, ops: seq<Op>): Registry
    decreases |ops|
  {
    if ops == [] then r else Run(Apply(r, ops[0]), ops[1..])
  }

  // ---------------------------------------------------------------- accounting

  /** The entries of a list stand in the order they were added. */
  predicate InOrder(es: seq<Entry>) {
    forall i, j :: 0 <= i < j < |es| ==> es[i].id < es[j].id
  }

  predicate ListedAs(added: seq<Added>, host: string, e: Entry) {
    e.id < |added| && added[e.id] == Added(host, e)
  }

  /** Listed and never cancelled, or gone and cancelled exactly once. */
  predicate Settled(r: Registry, id: nat)
    requires id < |r.added|
  {
    r.cancelled[id] == if r.added[id].entry in ListOf(r.lists, r.added[id].host) then 0 else 1
  }

  /** No host keeps an empty list; lists are in registration order; and every listener
      ever added is either listed and not cancelled, or gone and cancelled once. */
  predicate Accounted(r: Registry) {
    && (forall h :: h in r.lists ==> r.lists[h] != [] && InOrder(r.lists[h]))
    && (forall h, i :: h in r.lists && 0 <= i < |r.lists[h]| ==> ListedAs(r.added, h, r.lists[h][i]))
    && (forall id :: 0 <= id < |r.added| ==> r.added[id].entry.id == id && Settled(r, id))
    && (forall id :: id in r.cancelled ==> id < |r.added|)
  }

  lemma OneMoreId(es: seq<Entry>, e: Entry, id: nat)
    requires forall f :: f in es ==> f.id < e.id
    requires multiset(Ids(es))[id] == if exists f :: f in es && f.id == id then 1 else 0
    ensures multiset(Ids(es) + [e.id])[id] == if exists f :: f in es + [e] && f.id == id then 1 else 0
  {
    if e.id == id { assert e in es + [e]; }
    else if f :| f in es && f.id == id { assert f in es + [e]; }
  }

  lemma {:induction false} IdsCount(es: seq<Entry>, id: nat)
    requires InOrder(es)
    ensures multiset(Ids(es))[id] == if exists e :: e in es && e.id == id then 1 else 0
    decreases |es|
  {
    if es != [] {
      var front, last := es[..|es| - 1], es[|es| - 1];
      IdsCount(front, id);
      FrontBefore(es);
      OneMoreId(front, last, id);
      assert es == front + [last];
    }
  }

  /** The last entry has the highest number. */
  lemma FrontBefore(es: seq<Entry>)
    requires InOrder(es) && es != []
    ensures forall e :: e in es[..|es| - 1] ==> e.id < es[|es| - 1].id
  {
  }

  /** Filtering by name splits a list in two, each in order. */
  lemma {:induction false} NamedSplits(es: seq<Entry>, name: string, with: bool)
    requires InOrder(es)
    ensures InOrder(Named(es, name, with))
    ensures forall e :: e in Named(es, name, with) <==> e in es && (e.name == name) == with
    decreases |es|
  {
    if es != [] {
      var front, last := es[..|es| - 1], es[|es| - 1];
      assert es == front + [last];
      NamedSplits(front, name, with);
      FrontBefore(es);
      LongerInOrder(Named(front, name, with), Pick(last, name, with));
    }
  }

  lemma LongerInOrder(es: seq<Entry>, more: seq<Entry>)
    requires InOrder(es) && |more| <= 1 && (forall e :: e in es && more != [] ==> e.id < more[0].id)
    ensures InOrder(es + more)
  {
    if more != [] {
      forall i | 0 <= i < |es| ensures es[i].id < more[0].id {
        assert es[i] in es;
      }
    }
  }

  // ---------------------------------------------------------------- every operation keeps the account

  lemma AddSettles(r: Registry, host: string, name: string, id: nat)
    requires Accounted(r) && id <= |r.added|
    ensures var r' := Apply(r, Add(host, name)); r'.added[id].entry.id == id && Settled(r', id)
  {
    var r' := Apply(r, Add(host, name));
    var es := ListOf(r.lists, host);
    if id < |r.added| {
      assert Settled(r, id);
      assert r.added[id].entry != Entry(|r.added|, name);
    } else {
      assert id !in r.cancelled;
      assert r'.lists[host][|es|] == Entry(|r.added|, name);
    }
  }

  lemma AddKeeps(r: Registry, host: string, name: string)
    requires Accounted(r)
    ensures Accounted(Apply(r, Add(host, name)))
  {
    var r' := Apply(r, Add(host, name));
    var es := ListOf(r.lists, host);
    forall i | 0 <= i < |es| ensures es[i].id < |r.added| {
      assert ListedAs(r.added, host, es[i]);
    }
    forall id | 0 <= id < |r'.added| ensures r'.added[id].entry.id == id && Settled(r', id) {
      AddSettles(r, host, name, id);
    }
    forall h, i | h in r'.lists && 0 <= i < |r'.lists[h]| ensures ListedAs(r'.added, h, r'.lists[h][i]) {
      if h != host { assert ListedAs(r.added, h, r.lists[h][i]); }
      else if i < |es| { assert ListedAs(r.added, h, es[i]); }
    }
  }

  /** An id is listed under a host exactly when its entry is. */
  lemma ListedById(r: Registry, host: string, id: nat)
    requires Accounted(r) && host in r.lists
    ensures (exists e :: e in r.lists[host] && e.id == id) <==>
            id < |r.added| && r.added[id].host == host && r.added[id].entry in r.lists[host]
  {
    forall e | e in r.lists[host] ensures ListedAs(r.added, host, e) {
      var i :| 0 <= i < |r.lists[host]| && r.lists[host][i] == e;
    }
  }

  function Prune(r: Registry, host: string, kept: seq<Entry>, dropped: seq<Entry>): Registry {
    r.(lists := WithList(r.lists, host, kept), cancelled := r.cancelled + multiset(Ids(dropped)))
  }

  /** `kept` and `dropped` are what `es` splits into. */
  ghost predicate Splits(es: seq<Entry>, kept: seq<Entry>, dropped: seq<Entry>) {
    && InOrder(kept) && InOrder(dropped)
    && (forall e :: e in es <==> e in kept || e in dropped)
    && (forall e :: !(e in kept && e in dropped))
  }

  lemma PruneSettles(r: Registry, host: string, kept: seq<Entry>, dropped: seq<Entry>, id: nat)
    requires Accounted(r) && host in r.lists && Splits(r.lists[host], kept, dropped) && id < |r.added|
    ensures Settled(Prune(r, host, kept, dropped), id)
  {
    assert Settled(r, id);
    IdsCount(dropped, id);
    DroppedOnce(r, host, dropped, id);
  }

  lemma PruneLists(r: Registry, host: string, kept: seq<Entry>, dropped: seq<Entry>, i: nat)
    requires Accounted(r) && host in r.lists && Splits(r.lists[host], kept, dropped) && i < |kept|
    ensures ListedAs(r.added, host, kept[i])
  {
    assert kept[i] in kept;
    var j :| 0 <= j < |r.lists[host]| && r.lists[host][j] == kept[i];
    assert ListedAs(r.added, host, r.lists[host][j]);
  }

  lemma PruneCancels(r: Registry, host: string, dropped: seq<Entry>, id: nat)
    requires Accounted(r) && host in r.lists && InOrder(dropped) && id in multiset(Ids(dropped))
    requires forall e :: e in dropped ==> e in r.lists[host]
    ensures id < |r.added|
  {
    IdsCount(dropped, id);
    var e :| e in dropped && e.id == id;
    ListedById(r, host, id);
  }

  /** Replacing one list by part of it and cancelling the rest keeps the account. */
  lemma PruneKeeps(r: Registry, host: string, kept: seq<Entry>, dropped: seq<Entry>)
    requires Accounted(r) && host in r.lists && Splits(r.lists[host], kept, dropped)
    ensures Accounted(Prune(r, host, kept, dropped))
  {
    var r' := Prune(r, host, kept, dropped);
    forall id | 0 <= id < |r'.added| ensures r'.added[id].entry.id == id && Settled(r', id) {
      PruneSettles(r, host, kept, dropped, id);
    }
    forall h, i | h in r'.lists && 0 <= i < |r'.lists[h]| ensures ListedAs(r'.added, h, r'.lists[h][i]) {
      if h == host { PruneLists(r, host, kept, dropped, i); } else { assert ListedAs(r.added, h, r.lists[h][i]); }
    }
    forall id | id in r'.cancelled ensures id < |r'.added| {
      if id !in r.cancelled { PruneCancels(r, host, dropped, id); }
    }
  }

  lemma DroppedOnce(r: Registry, host: string, dropped: seq<Entry>, id: nat)
    requires Accounted(r) && host in r.lists && id < |r.added|
    requires forall e :: e in dropped ==> e in r.lists[host]
    ensures (exists e :: e in dropped && e.id == id) <==> r.added[id].host == host && r.added[id].entry in dropped
  {
    forall e | e in dropped ensures ListedAs(r.added, host, e) {
      var i :| 0 <= i < |r.lists[host]| && r.lists[host][i] == e;
    }
  }

  lemma RemoveNamedKeeps(r: Registry, host: string, name: string)
    requires Accounted(r)
    ensures Accounted(Apply(r, RemoveNamed(host, name)))
  {
    if host in r.lists {
      NamedSplits(r.lists[host], name, true);
      NamedSplits(r.lists[host], name, false);
      PruneKeeps(r, host, Named(r.lists[host], name, false), Named(r.lists[host], name, true));
    }
  }

  lemma RemoveAllKeeps(r: Registry, host: string)
    requires Accounted(r)
    ensures Accounted(Apply(r, RemoveAll(host)))
  {
    if host in r.lists {
      PruneKeeps(r, host, [], r.lists[host]);
    } else {
      assert r.lists - {host} == r.lists;
      assert Apply(r, RemoveAll(host)).cancelled == r.cancelled;
    }
  }

  lemma CloseKeeps(r: Registry)
    requires Accounted(r)
    ensures Accounted(Apply(r, Close))
  {
    var r' := Apply(r, Close);
    forall id | 0 <= id < |r.added| ensures Settled(r', id) {
      assert Settled(r, id);
      ListedIdsAre(r, id);
    }
    forall id | id in r'.cancelled ensures id < |r'.added| {
      ListedIdsAre(r, id);
    }
  }

  lemma ListedIdsAre(r: Registry, id: nat)
    requires Accounted(r)
    ensures id in ListedIds(r.lists) <==> id < |r.added| && r.added[id].entry in ListOf(r.lists, r.added[id].host)
  {
    if id in ListedIds(r.lists) {
      var h, i :| h in r.lists && 0 <= i < |r.lists[h]| && r.lists[h][i].id == id;
      assert ListedAs(r.added, h, r.lists[h][i]);
    }
  }

  lemma ApplyKeeps(r: Registry, op: Op)
    requires Accounted(r)
    ensures Accounted(Apply(r, op))
  {
    match op {
      case Add(host, name) => AddKeeps(r, host, name);
      case RemoveAll(host) => RemoveAllKeeps(r, host);
      case RemoveNamed(host, name) => RemoveNamedKeeps(r, host, name);
      case Close => CloseKeeps(r);
    }
  }

  /** After any sequence of operations every listener is accounted for. */
  lemma {:induction false} RunAccounted(r: Registry, ops: seq<Op>)
    requires Accounted(r)
    ensures Accounted(Run(r, ops))
    decreases |ops|
  {
    if ops != [] {
      ApplyKeeps(r, ops[0]);
      RunAccounted(Apply(r, ops[0]), ops[1..]);
    }
  }

  // ---------------------------------------------------------------- what each operation does

  /** Every host but `host` keeps its list, and no listener is added. */
  predicate OnlyHost(r: Registry, r': Registry, host: string) {
    && r'.added == r.added
    && (forall h :: h in r.lists && h != host ==> h in r'.lists && r'.lists[h] == r.lists[h])
    && (forall h :: h in r'.lists && h != host ==> h in r.lists)
  }

  predicate HasId(es: seq<Entry>, id: nat) {
    exists e :: e in es && e.id == id
  }

  predicate HasNamedId(es: seq<Entry>, id: nat, name: string) {
    exists e :: e in es && e.id == id && e.name == name
  }

  /** A removal forgets the host and cancels each of its listeners, once and for the
      first time, and nobody else. */
  ghost predicate RemovedAll(r: Registry, r': Registry, host: string) {
    && host !in r'.lists && OnlyHost(r, r', host)
    && (forall id :: r'.cancelled[id] == if HasId(ListOf(r.lists, host), id) then 1 else r.cancelled[id])
  }

  /** A removal by name leaves the listeners of other names, in order, and cancels those
      of the name, once and for the first time, and nobody else. */
  ghost predicate RemovedNamed(r: Registry, r': Registry, host: string, name: string) {
    && OnlyHost(r, r', host) && (host in r'.lists ==> r'.lists[host] != [])
    && InOrder(ListOf(r'.lists, host))
    && (forall e :: e in ListOf(r'.lists, host) <==> e in ListOf(r.lists, host) && e.name != name)
    && (forall id :: r'.cancelled[id] == if HasNamedId(ListOf(r.lists, host), id, name) then 1 else r.cancelled[id])
  }

  /** Closing forgets every host and cancels every listed listener, once and for the
      first time, and nobody else. */
  ghost predicate ClosedAll(r: Registry, r': Registry) {
    && r'.lists == map[] && r'.added == r.added
    && (forall h, e :: h in r.lists && e in r.lists[h] ==> r'.cancelled[e.id] == 1)
    && (forall id :: (forall h :: h in r.lists ==> !HasId(r.lists[h], id)) ==> r'.cancelled[id] == r.cancelled[id])
  }

  /** What is listed has not been cancelled. */
  lemma ListedUncancelled(r: Registry, host: string, e: Entry)
    requires Accounted(r) && host in r.lists && e in r.lists[host]
    ensures r.cancelled[e.id] == 0
  {
    var i :| 0 <= i < |r.lists[host]| && r.lists[host][i] == e;
    assert ListedAs(r.added, host, r.lists[host][i]);
    assert Settled(r, e.id);
  }

  lemma RemoveAllMeans(r: Registry, host: string)
    requires Accounted(r)
    ensures RemovedAll(r, Apply(r, RemoveAll(host)), host)
  {
    var r' := Apply(r, RemoveAll(host));
    var es := ListOf(r.lists, host);
    forall id ensures r'.cancelled[id] == if HasId(es, id) then 1 else r.cancelled[id] {
      IdsCount(es, id);
      if HasId(es, id) {
        var e :| e in es && e.id == id;
        ListedUncancelled(r, host, e);
      }
    }
  }

  lemma RemoveNamedMeans(r: Registry, host: string, name: string)
    requires Accounted(r)
    ensures RemovedNamed(r, Apply(r, RemoveNamed(host, name)), host, name)
  {
    var r' := Apply(r, RemoveNamed(host, name));
    NamedLists(r, host, name);
    NamedKeepsOthers(r, host, name);
    forall id ensures r'.cancelled[id] == if HasNamedId(ListOf(r.lists, host), id, name) then 1 else r.cancelled[id] {
      NamedCount(r, host, name, id);
    }
  }

  lemma NamedKeepsOthers(r: Registry, host: string, name: string)
    ensures OnlyHost(r, WithoutNamed(r, host, name), host)
  {
  }

  lemma NamedLists(r: Registry, host: string, name: string)
    requires Accounted(r)
    ensures var lists := WithoutNamed(r, host, name).lists;
      && (host in lists ==> lists[host] != []) && InOrder(ListOf(lists, host))
      && (forall e :: e in ListOf(lists, host) <==> e in ListOf(r.lists, host) && e.name != name)
  {
    if host in r.lists { NamedSplits(r.lists[host], name, false); }
  }

  lemma NamedCount(r: Registry, host: string, name: string, id: nat)
    requires Accounted(r)
    ensures WithoutNamed(r, host, name).cancelled[id] ==
            if HasNamedId(ListOf(r.lists, host), id, name) then 1 else r.cancelled[id]
  {
    if host in r.lists {
      var es := r.lists[host];
      NamedSplits(es, name, true);
      IdsCount(Named(es, name, true), id);
      if HasNamedId(es, id, name) {
        var e :| e in es && e.id == id && e.name == name;
        assert e in Named(es, name, true);
        ListedUncancelled(r, host, e);
      }
    }
  }

  lemma CloseMeans(r: Registry)
    requires Accounted(r)
    ensures ClosedAll(r, Apply(r, Close))
  {
    var r' := Apply(r, Close);
    forall h, e | h in r.lists && e in r.lists[h] ensures r'.cancelled[e.id] == 1 {
      ListedUncancelled(r, h, e);
      var i :| 0 <= i < |r.lists[h]| && r.lists[h][i] == e;
      assert r.lists[h][i].id in ListedIds(r.lists);
    }
    forall id | forall h :: h in r.lists ==> !HasId(r.lists[h], id) ensures r'.cancelled[id] == r.cancelled[id] {
      ListedIsHad(r.lists, id);
    }
  }

  lemma ListedIsHad(lists: map<string, seq<Entry>>, id: nat)
    ensures id in ListedIds(lists) ==> exists h :: h in lists && HasId(lists[h], id)
  {
    if id in ListedIds(lists) {
      var h, i :| h in lists && 0 <= i < |lists[h]| && lists[h][i].id == id;
      assert HasId(lists[h], id);
    }
  }
}
